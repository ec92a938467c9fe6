/** What a command makes the agent ask of its device, and what its acknowledgement carries back, told on the fields of both. */
module CommandTasks {
  import opened Wrappers
  import opened Cwmp
  import opened Commands
  import B = Buffer
  import F = Fleet
  import D = Delivery

  /** The order the expected paths are listed in lists each of them. */
  predicate Lists(t: Turn) {
    (forall p | p in t.order :: p in Expected(t.cmd)) && forall p | p in Expected(t.cmd) :: p in t.order
  }

  /** A known device's write command is taken up: its outcome is not recorded, or cannot be read. */
  predicate TakenUp(applied: map<string, B.Outcome>, t: Turn) {
    t.known && (t.readFails || t.cmd.id !in applied)
  }

  predicate Accepted(t: Turn) {
    t.first.Some? && t.first.value.err == "" && t.first.value.status != 1 && !t.cancelled
  }

  /** The tasks queued for a command, on their fields. */
  ghost predicate AsksRightly(t: Turn, asked: seq<F.Asked>) {
    && (forall i | 0 <= i < |asked| :: asked[i].key == t.cmd.device)
    && if t.cmd.kind in {"configure", "optimise", "heal", "rollback"} then
         && |asked| == (if Accepted(t) then 2 else 1)
         && asked[0].task.kind == SPV && asked[0].task.writes == t.cmd.writes
         && asked[0].task.cmdKey == t.cmd.id && asked[0].task.commandId == t.cmd.id
         && (Accepted(t) ==>
               && asked[1].task.kind == GPV && asked[1].task.commandId == t.cmd.id + ":rb"
               && (Lists(t) ==> forall p :: p in asked[1].task.paths <==> p in Expected(t.cmd)))
       else if t.cmd.kind == "query" then
         |asked| == 1 && asked[0].task.kind == GPV && asked[0].task.paths == t.cmd.readPaths && asked[0].task.commandId == t.cmd.id
       else if t.cmd.kind == "reboot" then
         |asked| == 1 && asked[0].task.kind == Reboot && asked[0].task.cmdKey == t.cmd.id && asked[0].task.commandId == t.cmd.id
       else asked == []
  }

  lemma TurnAsksRightly(f: Format, d: Desk, t: Turn)
    ensures d.asked <= Take(f, d, t).asked
    ensures TakenUp(d.applied, t) ==> AsksRightly(t, Take(f, d, t).asked[|d.asked|..])
    ensures !TakenUp(d.applied, t) ==> Take(f, d, t).asked == d.asked
  {
    if TakenUp(d.applied, t) {
      var added := F.AskedOf(t.cmd.device, Tasks(t));
      assert Take(f, d, t).asked[|d.asked|..] == added;
      assert |added| == |Tasks(t)| && forall i | 0 <= i < |added| :: added[i].task == Tasks(t)[i];
      assert IsWrite(t.cmd.kind) <==> t.cmd.kind in {"configure", "optimise", "heal", "rollback"};
    } else if !t.known {
      assert F.AskedOf(t.cmd.device, []) == [];
      assert d.asked + [] == d.asked;
    }
  }

  lemma {:induction false} AskedGrows(f: Format, d: Desk, turns: seq<Turn>)
    ensures d.asked <= Run(f, d, turns).asked
    decreases |turns|
  {
    if turns != [] {
      TurnAsksRightly(f, d, turns[0]);
      AskedGrows(f, Take(f, d, turns[0]), turns[1..]);
    }
  }

  lemma {:induction false} RunConcat(f: Format, d: Desk, a: seq<Turn>, b: seq<Turn>)
    ensures Run(f, d, a + b) == Run(f, Run(f, d, a), b)
    decreases |a|
  {
    if a == [] {
      assert a + b == b;
    } else {
      assert (a + b)[1..] == a[1..] + b;
      RunConcat(f, Take(f, d, a[0]), a[1..], b);
    }
  }

  /**
   Wherever a command stands in the polls, the tasks queued for it stand together, where the
   earlier commands' end: a write with the command's own values under its id, after an accepted
   write a read of exactly the expected paths, a query's paths, a reboot.
   */
  lemma CommandAsksForWhatItSays(f: Format, d: Desk, before: seq<Turn>, t: Turn, after: seq<Turn>) returns (start: nat, end: nat)
    ensures var asked := Run(f, d, before + [t] + after).asked; var r := Run(f, d, before);
      && start == |r.asked| && start <= end <= |asked| && asked[..start] == r.asked
      && (if TakenUp(r.applied, t) then AsksRightly(t, asked[start..end]) else end == start)
  {
    var r := Run(f, d, before);
    var u := Take(f, r, t);
    assert before + [t] + after == before + ([t] + after);
    RunConcat(f, d, before, [t] + after);
    assert ([t] + after)[1..] == after;
    TurnAsksRightly(f, r, t);
    AskedGrows(f, u, after);
    start, end := |r.asked|, |u.asked|;
    assert Run(f, d, before + [t] + after).asked[start..end] == u.asked[start..];
  }

  // ---------------------------------------------------------------- what is verified

  /** Without values of its own to verify, a write is verified against the last value it writes to each path. */
  lemma WritesAreExpected(cmd: Command, i: nat)
    requires cmd.verify == map[] && i < |cmd.writes| && forall j | i < j < |cmd.writes| :: cmd.writes[j].name != cmd.writes[i].name
    ensures cmd.writes[i].name in Expected(cmd) && Expected(cmd)[cmd.writes[i].name] == cmd.writes[i].value
  {
    D.LastValueIsRead(cmd.writes, i);
  }

  lemma OnlyWritesAreExpected(cmd: Command, path: string)
    requires cmd.verify == map[]
    ensures path in Expected(cmd) <==> exists i | 0 <= i < |cmd.writes| :: cmd.writes[i].name == path
  {
    D.OnlyValuesAreRead(cmd.writes, path);
  }

  // ---------------------------------------------------------------- what is acknowledged

  /** An acknowledgement carries back what the device said: a query's values; a write's values read back, and exactly the paths that differ. */
  ghost predicate CarriesBack(f: Format, t: Turn, result: AckResult) {
    if !t.known || t.first.None? then result.readback == map[] && result.mismatch == {}
    else if t.cmd.kind in {"configure", "optimise", "heal", "rollback"} then
      if Accepted(t) && t.second.Some? then
        && result.readback == t.second.value.params && result.taskId == t.cmd.id
        && forall p :: p in result.mismatch <==>
             p in Expected(t.cmd) && (p !in t.second.value.params || !f.same(Expected(t.cmd)[p], t.second.value.params[p]))
      else result.readback == map[] && result.mismatch == {}
    else if t.cmd.kind == "query" then result.readback == t.first.value.params && result.mismatch == {}
    else result.readback == map[] && result.mismatch == {}
  }

  /** Every command that is not merely acknowledged again is acknowledged once, with what the device said. */
  lemma AckCarriesBack(f: Format, d: Desk, t: Turn)
    requires t.readFails || t.cmd.id !in d.applied
    ensures var acks := Take(f, d, t).acks;
      && |acks| == |d.acks| + 1 && d.acks <= acks && acks[|d.acks|].id == t.cmd.id
      && exists result :: CarriesBack(f, t, result) && acks[|d.acks|].outcome.result == f.encode(result)
  {
    assert IsWrite(t.cmd.kind) <==> t.cmd.kind in {"configure", "optimise", "heal", "rollback"};
    var ack := AckOf(f, t);
    assert CarriesBack(f, t, ack.result);
    assert Take(f, d, t).acks[|d.acks|].outcome.result == f.encode(ack.result);
  }

  /** A query is reported applied exactly when it was answered, and a reboot too; an unknown device or kind fails. */
  lemma OtherAppliedExactlyWhen(f: Format, d: Desk, t: Turn)
    requires t.readFails || t.cmd.id !in d.applied
    requires t.cmd.kind !in {"configure", "optimise", "heal", "rollback"}
    ensures var outcome := Take(f, d, t).acks[|d.acks|].outcome;
      && (outcome.status == "applied" <==> t.known && t.cmd.kind in {"query", "reboot"} && t.first.Some?)
      && (outcome.status == "failed" <==> outcome.status != "applied")
  {
    assert !IsWrite(t.cmd.kind);
    assert "applied"[0] != "failed"[0];
  }
}
