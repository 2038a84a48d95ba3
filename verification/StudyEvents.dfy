/** The documents and journal events of the study controller (tools/proof_plane/controller.py). */
module StudyEvents {
  import opened Wrappers
  import opened Ledger

  type RunId = string
  type Time = int

  datatype Plan = Plan(baseline: string, runtimeTcb: string, modelInstance: string, inputs: string)

  datatype Start = Start(run: RunId, ordinal: int, startedAt: Time, reservation: Digest<Event>, study: string,
      plan: Plan)

  datatype Status = Completed | Failed | Blocked | TimedOut | Unrecognised(text: string)

  predicate TerminalStatus(s: Status) { !s.Unrecognised? }

  datatype TerminalReceipt =
    TerminalReceipt(run: RunId, recordedAt: Time, startSha: Sha<Start>, status: Status, modelInstance: string)

  datatype QuarantineId = QuarantineId(run: RunId, anchor: AnchorDigest<Event>)

  datatype Manifest = Manifest(run: RunId, ordinal: int, reason: Sha<string>, quarantinedAt: Time)

  datatype TerminalSet =
    TerminalSet(study: string, starts: seq<Option<Start>>, terminals: seq<Option<TerminalReceipt>>, sealedAt: Time)

  datatype Seal = Seal(document: Sha<TerminalSet>, path: Sha<string>, sealedAt: Time)

  datatype Event =
    | Initialized(study: string, maxParallel: int)
    | Reserved(run: RunId, ordinal: int, reservedAt: Time)
    | Started(run: RunId, ordinal: int, reservation: Digest<Event>, startSha: Sha<Start>, planSha: Sha<Plan>,
        startedAt: Time)
    | Released(run: RunId, ordinal: int, quarantine: QuarantineId, reason: Sha<string>, manifest: Sha<Manifest>,
        releasedAt: Time)
    | Ended(run: RunId, ordinal: int, status: Status, terminalSha: Sha<TerminalReceipt>, recordedAt: Time)
    | SealStarted(seal: Seal)
    | Sealed(seal: Seal)

  type Journal = seq<Entry<Event>>
}
