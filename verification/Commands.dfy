/**
 Commands of the cloud: each is applied through tasks for its device, its outcome recorded,
 and acknowledged; a command with a recorded outcome is only acknowledged again.
 */
module Commands {
  import opened Wrappers
  import opened Cwmp
  import B = Buffer
  import Fleet

  datatype Command = Command(id: string, device: string, kind: string, writes: seq<Param>, verify: map<string, string>, readPaths: seq<string>)

  datatype Detail = Done | NoSession | Timeout | Rejected(err: string) | AfterReboot | Cancelled | Mismatch | UnknownKind(kind: string)

  datatype AckResult = AckResult(readback: map<string, string>, mismatch: set<string>, taskId: string, detail: Detail)

  datatype Ack = Ack(status: string, result: AckResult)

  /**
   What happens around one command: whether its device is known, what the two waits return,
   whether the agent is stopping, the order the expected paths are listed in, and whether
   reading or recording the outcome fails. Ending before the outcome is recorded is a failure to record it.
   */
  datatype Turn = Turn(cmd: Command, known: bool, first: Option<TaskResult>, second: Option<TaskResult>, cancelled: bool,
                       order: seq<string>, readFails: bool, writeFails: bool)

  /** How values read back are compared and results stored. */
  datatype Format = Format(same: (string, string) -> bool, encode: AckResult -> string)

  /** What a write is verified against: the values the command names, else those it writes. */
  function Expected(cmd: Command): map<string, string> {
    if cmd.verify != map[] then cmd.verify else ParamMap(cmd.writes)
  }

  predicate IsWrite(kind: string) {
    kind in {"configure", "optimise", "heal", "rollback"}
  }

  function Mismatches(f: Format, expected: map<string, string>, readback: map<string, string>): set<string> {
    set p | p in expected && !(p in readback && f.same(expected[p], readback[p]))
  }

  function Failed(detail: Detail): Ack {
    Ack("failed", AckResult(map[], {}, "", detail))
  }

  function WriteTask(cmd: Command): Task {
    Task(SPV, [], cmd.writes, cmd.id, cmd.id)
  }

  function ReadBackTask(t: Turn): Task {
    Task(GPV, t.order, [], "", t.cmd.id + ":rb")
  }

  function RebootTask(cmd: Command): Task {
    Task(Reboot, [], [], cmd.id, cmd.id)
  }

  /** The write was accepted, is already in effect, and the agent lives to read it back. */
  predicate ReadsBack(t: Turn) {
    t.first.Some? && t.first.value.err == "" && t.first.value.status != 1 && !t.cancelled
  }

  function Tasks(t: Turn): seq<Task> {
    if !t.known then []
    else if IsWrite(t.cmd.kind) then
      if ReadsBack(t) then [WriteTask(t.cmd), ReadBackTask(t)] else [WriteTask(t.cmd)]
    else if t.cmd.kind == "query" then [Task(GPV, t.cmd.readPaths, [], "", t.cmd.id)]
    else if t.cmd.kind == "reboot" then [RebootTask(t.cmd)]
    else []
  }

  function WriteAck(f: Format, t: Turn): Ack {
    if t.first.None? then Failed(Timeout)
    else if t.first.value.err != "" then Failed(Rejected(t.first.value.err))
    else if t.first.value.status == 1 then Ack("applied", AckResult(map[], {}, t.cmd.id, AfterReboot))
    else if t.cancelled then Failed(Cancelled)
    else if t.second.None? then Failed(Timeout)
    else
      var readback := t.second.value.params;
      var bad := Mismatches(f, Expected(t.cmd), readback);
      if bad != {} then Ack("failed", AckResult(readback, bad, t.cmd.id, Mismatch))
      else Ack("applied", AckResult(readback, bad, t.cmd.id, Done))
  }

  function AckOf(f: Format, t: Turn): Ack {
    if !t.known then Failed(NoSession)
    else if IsWrite(t.cmd.kind) then WriteAck(f, t)
    else if t.cmd.kind == "query" then
      if t.first.None? then Failed(Timeout) else Ack("applied", AckResult(t.first.value.params, {}, "", Done))
    else if t.cmd.kind == "reboot" then
      if t.first.None? then Failed(Timeout) else Ack("applied", AckResult(map[], {}, "", Done))
    else Failed(UnknownKind(t.cmd.kind))
  }

  /** A write is reported applied exactly when the device took it and, unless it waits for a reboot, every expected value was read back. */
  lemma WriteAppliedExactlyWhen(f: Format, t: Turn)
    requires IsWrite(t.cmd.kind)
    ensures AckOf(f, t).status == "applied" <==>
      && t.known && t.first.Some? && t.first.value.err == ""
      && (t.first.value.status == 1
          || (!t.cancelled && t.second.Some?
              && (forall p | p in Expected(t.cmd) :: p in t.second.value.params && f.same(Expected(t.cmd)[p], t.second.value.params[p]))))
  {
    if ReadsBack(t) && t.second.Some? {
      var bad := Mismatches(f, Expected(t.cmd), t.second.value.params);
      if p :| p in bad {
        assert p in Expected(t.cmd);
      } else {
        assert forall p | p in Expected(t.cmd) :: p !in bad;
      }
    }
  }

  /** No command is reported applied unless it queued a task under its own id and that task was answered. */
  lemma AppliedMeansAnswered(f: Format, t: Turn)
    requires AckOf(f, t).status == "applied"
    ensures Tasks(t) != [] && Tasks(t)[0].commandId == t.cmd.id && t.first.Some?
    ensures |Tasks(t)| == 2 ==> t.second.Some?
  {
    if IsWrite(t.cmd.kind) {
      WriteAppliedExactlyWhen(f, t);
    }
  }

  // ---------------------------------------------------------------- runs of the command loop

  datatype Said = Said(id: string, outcome: B.Outcome)

  /** Recorded outcomes, tasks queued, and acknowledgements sent. */
  datatype Desk = Desk(applied: map<string, B.Outcome>, asked: seq<Fleet.Asked>, acks: seq<Said>)

  function OutcomeOf(f: Format, t: Turn): B.Outcome {
    B.Outcome(AckOf(f, t).status, f.encode(AckOf(f, t).result))
  }

  predicate Skipped(applied: map<string, B.Outcome>, t: Turn) {
    !t.readFails && t.cmd.id in applied
  }

  function Take(f: Format, d: Desk, t: Turn): Desk {
    if Skipped(d.applied, t) then d.(acks := d.acks + [Said(t.cmd.id, d.applied[t.cmd.id])])
    else
      Desk(if t.writeFails then d.applied else d.applied[t.cmd.id := OutcomeOf(f, t)],
           d.asked + Fleet.AskedOf(t.cmd.device, Tasks(t)),
           d.acks + [Said(t.cmd.id, OutcomeOf(f, t))])
  }

  function Run(f: Format, d: Desk, turns: seq<Turn>): Desk
    decreases |turns|
  {
    if turns == [] then d else Run(f, Take(f, d, turns[0]), turns[1..])
  }

  class Commander {
    const buf: B.Buffer
    const format: Format

    constructor (buf: B.Buffer, format: Format)
      ensures this.buf == buf && this.format == format
    {
      this.buf, this.format := buf, format;
    }

    /** Runs one command and tells its acknowledgement and the tasks it queued. */
    method Apply(t: Turn) returns (ack: Ack, queued: seq<Task>)
      ensures ack == AckOf(format, t) && queued == Tasks(t)
    {
      queued := [];
      if !t.known {
        return Failed(NoSession), queued;
      }
      if IsWrite(t.cmd.kind) {
        queued := queued + [WriteTask(t.cmd)];
        if t.first.None? {
          return Failed(Timeout), queued;
        }
        if t.first.value.err != "" {
          return Failed(Rejected(t.first.value.err)), queued;
        }
        if t.first.value.status == 1 {
          return Ack("applied", AckResult(map[], {}, t.cmd.id, AfterReboot)), queued;
        }
        if t.cancelled {
          return Failed(Cancelled), queued;
        }
        queued := queued + [ReadBackTask(t)];
        if t.second.None? {
          return Failed(Timeout), queued;
        }
        var readback := t.second.value.params;
        var mismatch := Mismatches(format, Expected(t.cmd), readback);
        var status, detail := "applied", Done;
        if mismatch != {} {
          status, detail := "failed", Mismatch;
        }
        return Ack(status, AckResult(readback, mismatch, t.cmd.id, detail)), queued;
      }
      if t.cmd.kind == "query" {
        queued := queued + [Task(GPV, t.cmd.readPaths, [], "", t.cmd.id)];
        if t.first.None? {
          return Failed(Timeout), queued;
        }
        return Ack("applied", AckResult(t.first.value.params, {}, "", Done)), queued;
      }
      if t.cmd.kind == "reboot" {
        queued := queued + [RebootTask(t.cmd)];
        if t.first.None? {
          return Failed(Timeout), queued;
        }
        return Ack("applied", AckResult(map[], {}, "", Done)), queued;
      }
      ack := Failed(UnknownKind(t.cmd.kind));
    }

    /** One poll's commands, in order. */
    method HandleCommands(turns: seq<Turn>) returns (asked: seq<Fleet.Asked>, acks: seq<Said>)
      modifies buf`applied
      ensures Desk(buf.applied, asked, acks) == Run(format, Desk(old(buf.applied), [], []), turns)
    {
      asked, acks := [], [];
      var i := 0;
      while i < |turns|
        invariant 0 <= i <= |turns|
        invariant Run(format, Desk(old(buf.applied), [], []), turns) == Run(format, Desk(buf.applied, asked, acks), turns[i..])
      {
        var t := turns[i];
        assert turns[i..][1..] == turns[i + 1..];
        i := i + 1;
        var done := buf.AlreadyApplied(t.cmd.id, t.readFails);
        if done.Some? {
          acks := acks + [Said(t.cmd.id, done.value)];
          continue;
        }
        var ack, queued := Apply(t);
        asked := asked + Fleet.AskedOf(t.cmd.device, queued);
        var outcome := B.Outcome(ack.status, format.encode(ack.result));
        buf.MarkApplied(t.cmd.id, outcome, t.writeFails);
        acks := acks + [Said(t.cmd.id, outcome)];
      }
    }
  }

  // ---------------------------------------------------------------- at most once

  /** How often the command is carried out rather than only acknowledged. */
  function Carried(f: Format, d: Desk, turns: seq<Turn>, id: string): nat
    decreases |turns|
  {
    if turns == [] then 0
    else (if turns[0].cmd.id == id && !Skipped(d.applied, turns[0]) then 1 else 0) + Carried(f, Take(f, d, turns[0]), turns[1..], id)
  }

  function Faults(turns: seq<Turn>, id: string): nat
    decreases |turns|
  {
    if turns == [] then 0
    else (if turns[0].cmd.id == id && (turns[0].readFails || turns[0].writeFails) then 1 else 0) + Faults(turns[1..], id)
  }

  predicate Polled(turns: seq<Turn>, id: string) {
    exists i :: 0 <= i < |turns| && turns[i].cmd.id == id
  }

  function Unrecorded(applied: map<string, B.Outcome>, id: string): nat {
    if id in applied then 0 else 1
  }

  /**
   A command is carried out once plus once per failure to read or record its outcome, at most:
   once its outcome is recorded, and while it stays readable, never again.
   */
  lemma {:induction false} CarriedAtMostOncePlusFaults(f: Format, d: Desk, turns: seq<Turn>, id: string)
    ensures Carried(f, d, turns, id) + Unrecorded(Run(f, d, turns).applied, id) <= Faults(turns, id) + Unrecorded(d.applied, id)
    decreases |turns|
  {
    if turns != [] {
      CarriedAtMostOncePlusFaults(f, Take(f, d, turns[0]), turns[1..], id);
    }
  }

  /** Without failures a command polled any number of times is carried out exactly once. */
  lemma {:induction false} CarriedExactlyOnce(f: Format, d: Desk, turns: seq<Turn>, id: string)
    requires Faults(turns, id) == 0
    ensures Carried(f, d, turns, id) == if Polled(turns, id) && id !in d.applied then 1 else 0
    decreases |turns|
  {
    if turns != [] {
      CarriedExactlyOnce(f, Take(f, d, turns[0]), turns[1..], id);
      PolledCons(turns, id);
    }
  }

  lemma PolledCons(turns: seq<Turn>, id: string)
    requires turns != []
    ensures Polled(turns, id) <==> turns[0].cmd.id == id || Polled(turns[1..], id)
  {
    if Polled(turns, id) && turns[0].cmd.id != id {
      var i :| 0 <= i < |turns| && turns[i].cmd.id == id;
      assert turns[1..][i - 1] == turns[i];
    }
    if Polled(turns[1..], id) {
      var i :| 0 <= i < |turns[1..]| && turns[1..][i].cmd.id == id;
      assert turns[i + 1] == turns[1..][i];
    }
  }

  /** Without failures every acknowledgement of a command says the same. */
  lemma {:induction false} AcksAgree(f: Format, d: Desk, turns: seq<Turn>, id: string)
    requires Faults(turns, id) == 0
    requires forall a | a in d.acks && a.id == id :: id in d.applied && a.outcome == d.applied[id]
    ensures var r := Run(f, d, turns); forall a | a in r.acks && a.id == id :: id in r.applied && a.outcome == r.applied[id]
    decreases |turns|
  {
    if turns != [] {
      AcksAgree(f, Take(f, d, turns[0]), turns[1..], id);
    }
  }

  /** A recorded outcome stands: while it can be read, polling its command again changes nothing and is acknowledged with that outcome. */
  lemma {:induction false} RecordedOutcomeStands(f: Format, d: Desk, turns: seq<Turn>, id: string)
    requires id in d.applied && forall i | 0 <= i < |turns| && turns[i].cmd.id == id :: !turns[i].readFails
    ensures var r := Run(f, d, turns);
      && id in r.applied && r.applied[id] == d.applied[id] && Carried(f, d, turns, id) == 0
      && |d.acks| <= |r.acks| && forall i | |d.acks| <= i < |r.acks| && r.acks[i].id == id :: r.acks[i].outcome == d.applied[id]
    decreases |turns|
  {
    if turns != [] {
      RecordedOutcomeStands(f, Take(f, d, turns[0]), turns[1..], id);
      AcksGrow(f, Take(f, d, turns[0]), turns[1..]);
    }
  }

  lemma {:induction false} AcksGrow(f: Format, d: Desk, turns: seq<Turn>)
    ensures d.acks <= Run(f, d, turns).acks
    decreases |turns|
  {
    if turns != [] {
      AcksGrow(f, Take(f, d, turns[0]), turns[1..]);
    }
  }
}
