/**
 From a reboot command of the cloud to the device: over any number of agent restarts, and
 whatever devices do, it is sent once, plus once per fault.
 */
module RebootOnce {
  import opened Wrappers
  import opened Cwmp
  import opened Commands
  import opened Traffic
  import F = Fleet
  import B = Buffer

  // ---------------------------------------------------------------- the command loop by itself

  lemma {:induction false} RebootsAskedConcat(a: seq<F.Asked>, b: seq<F.Asked>, key: string, cmd: string)
    ensures RebootsAsked(a + b, key, cmd) == RebootsAsked(a, key, cmd) + RebootsAsked(b, key, cmd)
    decreases |b|
  {
    if b == [] {
      assert a + b == a;
    } else {
      var k := |b| - 1;
      assert a + b == (a + b[..k]) + [b[k]];
      RebootsAskedSnoc(a + b[..k], b[k], key, cmd);
      RebootsAskedConcat(a, b[..k], key, cmd);
    }
  }

  lemma TurnReboots(t: Turn, key: string, cmd: string)
    ensures RebootsAsked(F.AskedOf(t.cmd.device, Tasks(t)), key, cmd) <= if t.cmd.id == cmd then 1 else 0
  {
    var asked := F.AskedOf(t.cmd.device, Tasks(t));
    assert |asked| <= 2;
    assert RebootsAsked([], key, cmd) == 0;
    if |asked| == 1 {
      assert asked[..0] == [];
    } else if |asked| == 2 {
      assert asked[..1][..0] == [];
    }
  }

  /** Reboots are queued under an id no more often than their command is carried out. */
  lemma {:induction false} RebootsAskedAtMostCarried(f: Format, d: Desk, turns: seq<Turn>, key: string, cmd: string)
    ensures RebootsAsked(Run(f, d, turns).asked, key, cmd) <= RebootsAsked(d.asked, key, cmd) + Carried(f, d, turns, cmd)
    decreases |turns|
  {
    if turns != [] {
      var t := turns[0];
      TurnReboots(t, key, cmd);
      RebootsAskedConcat(d.asked, F.AskedOf(t.cmd.device, Tasks(t)), key, cmd);
      RebootsAskedAtMostCarried(f, Take(f, d, t), turns[1..], key, cmd);
    }
  }

  // ---------------------------------------------------------------- the loop among everything else

  /** The ACS and its devices, the recorded outcomes, the command being carried out, and the calls sent before the last restart. */
  datatype Agent = Agent(w: F.World, applied: map<string, B.Outcome>, current: Option<Turn>, past: seq<F.Sent>)

  /**
   Net: a device or another part of the agent acts. Begin: the worker takes up a command and,
   unless its outcome is recorded, queues its first task by the given step. ReadBack: it queues
   the second. Record: the outcome is recorded and the command done. Restart: the agent ends at
   any point and starts anew; devices keep their cookies.
   */
  datatype Move = Net(step: F.Step) | Begin(turn: Turn, at: F.Step) | ReadBack(at: F.Step) | Record | Restart

  /** The tasks a step queues. */
  function QueuedBy(w: F.World, s: F.Step): seq<F.Asked>
    requires F.Enabled(w, s)
  {
    match s
    case Queue(key, t) => [F.Asked(key, t)]
    case Handle(r, _, before, amid) => F.AskedOf(w.routed[r].key, before + amid)
    case _ => []
  }

  function RebootsOf(asked: seq<F.Asked>): seq<F.Asked> {
    if asked == [] then []
    else
      var k := |asked| - 1;
      if asked[k].task.kind == Reboot then RebootsOf(asked[..k]) + [asked[k]] else RebootsOf(asked[..k])
  }

  /** The step queues this task of the command, and no reboot besides. */
  predicate Queues(w: F.World, s: F.Step, a: F.Asked) {
    F.Enabled(w, s) && a in QueuedBy(w, s) && RebootsOf(QueuedBy(w, s)) == RebootsOf([a])
  }

  predicate Enabled(a: Agent, m: Move) {
    match m
    case Net(s) => F.Enabled(a.w, s) && RebootsOf(QueuedBy(a.w, s)) == []
    case Begin(t, at) =>
      a.current.None? && (!Skipped(a.applied, t) && Tasks(t) != [] ==> Queues(a.w, at, F.Asked(t.cmd.device, Tasks(t)[0])))
    case ReadBack(at) =>
      a.current.Some? && |Tasks(a.current.value)| == 2
      && Queues(a.w, at, F.Asked(a.current.value.cmd.device, Tasks(a.current.value)[1]))
    case Record => a.current.Some?
    case Restart => true
  }

  function Do(f: Format, a: Agent, m: Move): Agent
    requires Enabled(a, m)
  {
    match m
    case Net(s) => a.(w := F.Do(a.w, s))
    case Begin(t, at) =>
      if Skipped(a.applied, t) then a
      else a.(current := Some(t), w := if Tasks(t) == [] then a.w else F.Do(a.w, at))
    case ReadBack(at) => a.(w := F.Do(a.w, at))
    case Record =>
      var t := a.current.value;
      a.(current := None, applied := if t.writeFails then a.applied else a.applied[t.cmd.id := OutcomeOf(f, t)])
    case Restart =>
      a.(w := F.Start(a.w.acs.cache, a.w.acs.firstContact, a.w.jars), current := None, past := a.past + a.w.sent)
  }

  predicate Legal(f: Format, a: Agent, moves: seq<Move>)
    decreases |moves|
  {
    moves == [] || (Enabled(a, moves[0]) && Legal(f, Do(f, a, moves[0]), moves[1..]))
  }

  function Exec(f: Format, a: Agent, moves: seq<Move>): Agent
    requires Legal(f, a, moves)
    decreases |moves|
  {
    if moves == [] then a else Exec(f, Do(f, a, moves[0]), moves[1..])
  }

  predicate Underway(a: Agent, id: string) {
    a.current.Some? && a.current.value.cmd.id == id
  }

  /** A recorded outcome that cannot be read, an outcome that cannot be written, or an end before it is. */
  predicate Fault(a: Agent, m: Move, id: string) {
    match m
    case Begin(t, _) => t.cmd.id == id && t.readFails
    case Record => Underway(a, id) && a.current.value.writeFails
    case Restart => Underway(a, id)
    case _ => false
  }

  function FaultsOf(f: Format, a: Agent, moves: seq<Move>, id: string): nat
    requires Legal(f, a, moves)
    decreases |moves|
  {
    if moves == [] then 0
    else (if Fault(a, moves[0], id) then 1 else 0) + FaultsOf(f, Do(f, a, moves[0]), moves[1..], id)
  }

  /** All reboots sent to any device for a command, over all lifetimes. */
  function RebootsSent(a: Agent, cmd: string): nat {
    |SentKeys(a.past, cmd)| + |SentKeys(a.w.sent, cmd)|
  }

  // ---------------------------------------------------------------- the budget of a command

  /** Reboots sent in earlier lifetimes and asked for in this one. */
  function Spent(a: Agent, cmd: string): nat {
    |SentKeys(a.past, cmd)| + |AskedKeys(a.w.asked, cmd)|
  }

  /** Whether the command may still be taken up without a fault. */
  function Left(a: Agent, id: string): nat {
    if Underway(a, id) then 0 else Unrecorded(a.applied, id)
  }

  ghost predicate Sound(a: Agent) {
    forall key, cmd :: Delivering(a.w, key, cmd)
  }

  lemma {:induction false} SentKeysConcat(a: seq<F.Sent>, b: seq<F.Sent>, cmd: string)
    ensures SentKeys(a + b, cmd) == SentKeys(a, cmd) + SentKeys(b, cmd)
    decreases |b|
  {
    if b == [] {
      assert a + b == a;
    } else {
      var k := |b| - 1;
      assert (a + b)[..|a + b| - 1] == a + b[..k];
      SentKeysConcat(a, b[..k], cmd);
    }
  }

  lemma {:induction false} AskedKeysConcat(a: seq<F.Asked>, b: seq<F.Asked>, cmd: string)
    ensures AskedKeys(a + b, cmd) == AskedKeys(a, cmd) + AskedKeys(b, cmd)
    decreases |b|
  {
    if b == [] {
      assert a + b == a;
    } else {
      var k := |b| - 1;
      assert (a + b)[..|a + b| - 1] == a + b[..k];
      AskedKeysConcat(a, b[..k], cmd);
    }
  }

  lemma {:induction false} AskedKeysOfReboots(asked: seq<F.Asked>, cmd: string)
    ensures AskedKeys(asked, cmd) == AskedKeys(RebootsOf(asked), cmd)
    decreases |asked|
  {
    if asked != [] {
      var k := |asked| - 1;
      AskedKeysOfReboots(asked[..k], cmd);
      var rest := RebootsOf(asked[..k]);
      assert (rest + [asked[k]])[..|rest|] == rest;
    }
  }

  /** A step spends what it queues. */
  lemma StepSpends(w: F.World, s: F.Step, cmd: string)
    requires F.Enabled(w, s)
    ensures |AskedKeys(F.Do(w, s).asked, cmd)| == |AskedKeys(w.asked, cmd)| + |AskedKeys(RebootsOf(QueuedBy(w, s)), cmd)|
  {
    assert F.Do(w, s).asked == w.asked + QueuedBy(w, s);
    AskedKeysConcat(w.asked, QueuedBy(w, s), cmd);
    AskedKeysOfReboots(QueuedBy(w, s), cmd);
  }

  lemma OneTaskSpends(a: F.Asked, cmd: string)
    ensures |AskedKeys(RebootsOf([a]), cmd)| == if IsReboot(a.task, cmd) then 1 else 0
  {
    AskedKeysOfReboots([a], cmd);
    assert [a][..0] == [];
    assert AskedKeys([a][..0], cmd) == [];
  }

  /** The task that takes up a command is a reboot only for that command's id, and a read-back never. */
  lemma OnlyRebootsReboot(t: Turn, i: nat, cmd: string)
    requires i < |Tasks(t)|
    ensures IsReboot(Tasks(t)[i], cmd) ==> i == 0 && t.cmd.id == cmd
  {
  }

  lemma TurnSpends(t: Turn, i: nat, cmd: string)
    requires i < |Tasks(t)|
    ensures |AskedKeys(RebootsOf([F.Asked(t.cmd.device, Tasks(t)[i])]), cmd)| <= if i == 0 && t.cmd.id == cmd then 1 else 0
  {
    OneTaskSpends(F.Asked(t.cmd.device, Tasks(t)[i]), cmd);
    OnlyRebootsReboot(t, i, cmd);
  }

  lemma MoveKeepsBudget(f: Format, a: Agent, m: Move, cmd: string)
    requires Sound(a) && Enabled(a, m)
    ensures Spent(Do(f, a, m), cmd) + Left(Do(f, a, m), cmd) <= Spent(a, cmd) + Left(a, cmd) + if Fault(a, m, cmd) then 1 else 0
  {
    match m {
      case Net(s) => StepSpends(a.w, s, cmd);
      case Begin(t, at) =>
        if !Skipped(a.applied, t) && Tasks(t) != [] {
          StepSpends(a.w, at, cmd);
          TurnSpends(t, 0, cmd);
        }
      case ReadBack(at) =>
        StepSpends(a.w, at, cmd);
        TurnSpends(a.current.value, 1, cmd);
      case Record =>
      case Restart =>
        SentAtMostAsked(a.w, cmd);
        SentKeysConcat(a.past, a.w.sent, cmd);
    }
  }

  lemma WorldStaysSound(a: Agent, s: F.Step)
    requires Sound(a) && F.Enabled(a.w, s)
    ensures Sound(a.(w := F.Do(a.w, s)))
  {
    forall key, cmd ensures Delivering(F.Do(a.w, s), key, cmd) {
      StepDelivers(a.w, s, key, cmd);
    }
  }

  lemma MoveKeepsSound(f: Format, a: Agent, m: Move)
    requires Sound(a) && Enabled(a, m)
    ensures Sound(Do(f, a, m))
  {
    match m {
      case Net(s) => WorldStaysSound(a, s);
      case Begin(t, at) =>
        if !Skipped(a.applied, t) && Tasks(t) != [] {
          WorldStaysSound(a, at);
        }
      case ReadBack(at) => WorldStaysSound(a, at);
      case _ =>
    }
  }

  lemma {:induction false} RunKeepsBudget(f: Format, a: Agent, moves: seq<Move>, cmd: string)
    requires Sound(a) && Legal(f, a, moves)
    ensures Sound(Exec(f, a, moves))
    ensures Spent(Exec(f, a, moves), cmd) + Left(Exec(f, a, moves), cmd) <= Spent(a, cmd) + Left(a, cmd) + FaultsOf(f, a, moves, cmd)
    decreases |moves|
  {
    if moves != [] {
      MoveKeepsBudget(f, a, moves[0], cmd);
      MoveKeepsSound(f, a, moves[0]);
      RunKeepsBudget(f, Do(f, a, moves[0]), moves[1..], cmd);
    }
  }

  function Fresh(cache: Cache, firstContact: seq<string>, jars: map<nat, string>, applied: map<string, B.Outcome>): Agent {
    Agent(F.Start(cache, firstContact, jars), applied, None, [])
  }

  /** Whatever devices, polls, restarts and faults: a command's reboot is sent at most once in all, plus once per fault. */
  lemma RebootSentAtMostOncePlusFaults(f: Format, cache: Cache, firstContact: seq<string>, jars: map<nat, string>,
                                       applied: map<string, B.Outcome>, moves: seq<Move>, cmd: string)
    requires Legal(f, Fresh(cache, firstContact, jars, applied), moves)
    ensures var a := Fresh(cache, firstContact, jars, applied);
      RebootsSent(Exec(f, a, moves), cmd) <= Unrecorded(applied, cmd) + FaultsOf(f, a, moves, cmd)
  {
    var a := Fresh(cache, firstContact, jars, applied);
    RunKeepsBudget(f, a, moves, cmd);
    SentAtMostAsked(Exec(f, a, moves).w, cmd);
  }

  /** A command taken up and recorded in this machine leaves the outcomes that the command loop leaves. */
  lemma RecordIsTake(f: Format, a: Agent, d: Desk)
    requires a.current.Some? && d.applied == a.applied && !Skipped(d.applied, a.current.value)
    ensures Do(f, a, Record).applied == Take(f, d, a.current.value).applied
  {
  }
}
