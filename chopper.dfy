/**
 * The ESS chopper: one movable device assembled from a speed, a phase, a
 * park-position and a command channel, plus an optional state channel.
 * Commands are sequences of channel writes issued in a fixed order; the
 * first write a channel refuses raises, and nothing after it is issued.
 */
module Chopper {
  import opened Wrappers
  import opened Text
  import EpicsEnum

  /** One write to an attached channel; the numeric values are passed through untouched. */
  datatype Write =
    | Speed(speed: real)
    | Phase(phase: real)
    | Park(angle: real)
    | Cmd(command: string)

  /** How a command sequence ended: all writes issued, or raised at the write shown. */
  datatype Outcome = Done | Failed(at: Write)

  /** The writes a command sequence issued and how it ended. */
  datatype Effect = Effect(issued: seq<Write>, outcome: Outcome)

  /**
   * Issue the writes of `plan` one after another while the channels accept
   * them (`accepts`); the first refused write raises and ends the sequence.
   */
  function Run(plan: seq<Write>, accepts: Write -> bool): (e: Effect)
    ensures |e.issued| <= |plan| && e.issued == plan[..|e.issued|]
    ensures forall i :: 0 <= i < |e.issued| ==> accepts(e.issued[i])
    ensures e.outcome.Done? <==> |e.issued| == |plan|
    ensures e.outcome.Failed? ==>
      e.outcome.at == plan[|e.issued|] && !accepts(plan[|e.issued|])
  {
    if plan == [] then Effect([], Done)
    else if !accepts(plan[0]) then Effect([], Failed(plan[0]))
    else
      var rest := Run(plan[1..], accepts);
      Effect([plan[0]] + rest.issued, rest.outcome)
  }

  /** One step of `Run`: the first write goes out if accepted, and the rest follows. */
  lemma RunCons(w: Write, rest: seq<Write>, accepts: Write -> bool)
    ensures Run([w] + rest, accepts) ==
      if accepts(w) then Effect([w] + Run(rest, accepts).issued, Run(rest, accepts).outcome)
      else Effect([], Failed(w))
  {
  }

  /** `Run` on the start plan, case by case: where the sequence stops and what got out before. */
  lemma StartRun(hasState: bool, stateRead: string, pos: Position, accepts: Write -> bool)
    ensures Run(StartPlan(hasState, stateRead, pos), accepts) ==
      var init := hasState && stateRead == "init";
      var pre := if init then [Cmd("init")] else [];
      if init && !accepts(Cmd("init")) then Effect([], Failed(Cmd("init")))
      else if !accepts(Speed(pos.speed)) then Effect(pre, Failed(Speed(pos.speed)))
      else if !accepts(Phase(pos.phase)) then Effect(pre + [Speed(pos.speed)], Failed(Phase(pos.phase)))
      else if !accepts(Cmd("start")) then
        Effect(pre + [Speed(pos.speed), Phase(pos.phase)], Failed(Cmd("start")))
      else Effect(pre + [Speed(pos.speed), Phase(pos.phase), Cmd("start")], Done)
  {
    var afterSpeed := [Phase(pos.phase), Cmd("start")];
    var axes := [Speed(pos.speed)] + afterSpeed;
    assert [Cmd("start")] + [] == [Cmd("start")];
    assert [Phase(pos.phase)] + [Cmd("start")] == afterSpeed;
    RunCons(Cmd("start"), [], accepts);
    RunCons(Phase(pos.phase), [Cmd("start")], accepts);
    RunCons(Speed(pos.speed), afterSpeed, accepts);
    if hasState && stateRead == "init" {
      assert StartPlan(hasState, stateRead, pos) == [Cmd("init")] + axes;
      RunCons(Cmd("init"), axes, accepts);
    } else {
      assert StartPlan(hasState, stateRead, pos) == axes;
    }
  }

  /** Operational severities the chopper reports (a subset of NICOS's status levels). */
  datatype Severity = OK | WARN | BUSY | ERROR

  datatype Status = Status(severity: Severity, reason: string)

  /** `doStatus` raises KeyError for a lower-cased state label the table does not know. */
  datatype StatusError = UnknownState(state: string)

  /** `state_map`: the status reported for each state label of the hardware. */
  const StateMap: map<string, Status> := map[
    "init" := Status(ERROR, "Interlocks not fulfilled"),
    "stopped" := Status(OK, "Waiting for commands"),
    "parked" := Status(OK, "Parked"),
    "parking" := Status(BUSY, "Moving to park position"),
    "accelerating" := Status(BUSY, "Adjusting speed to target"),
    "phase_locking" := Status(BUSY, "Acquiring phase lock"),
    "phase_locked" := Status(OK, "Speed and phase locked"),
    "stopping" := Status(BUSY, "Decelerating disc"),
    "idle" := Status(OK, "Disc rotating freely, waiting for command."),
    "bearings" := Status(BUSY, "Initialising bearings")
  ]

  /** The status reported when no state channel is attached. */
  const MissingStateStatus := Status(WARN, "State PV is missing, no reliable state information.")

  /** The position of the chopper: the pair (speed, phase). */
  datatype Position = Position(speed: real, phase: real)

  /** The writes `doStart(pos)` issues, `init` first when the state channel reads exactly "init". */
  function StartPlan(hasState: bool, stateRead: string, pos: Position): (p: seq<Write>)
  {
    (if hasState && stateRead == "init" then [Cmd("init")] else [])
      + [Speed(pos.speed), Phase(pos.phase), Cmd("start")]
  }

  /** The writes `parkAt(angle)` issues. */
  function ParkPlan(angle: real): (p: seq<Write>)
  {
    [Park(angle), Cmd("park")]
  }

  class EssChopper {
    /** Whether the optional state channel is attached; fixed when the device is set up. */
    const hasState: bool
    /** Every write the attached channels have accepted, oldest first. */
    var trace: seq<Write>

    constructor (hasState: bool)
      ensures this.hasState == hasState && trace == []
    {
      this.hasState := hasState;
      trace := [];
    }

    /** `move` on one attached channel: the write is logged if the channel accepts it. */
    method Move(w: Write, accepts: Write -> bool) returns (ok: bool)
      modifies this`trace
      ensures ok == accepts(w)
      ensures trace == old(trace) + (if ok then [w] else [])
    {
      ok := accepts(w);
      if ok {
        trace := trace + [w];
      }
    }

    /** A single write to the command channel, raising if it is refused. */
    method Command(c: string, accepts: Write -> bool) returns (out: Outcome)
      modifies this`trace
      ensures trace == old(trace) + Run([Cmd(c)], accepts).issued
      ensures out == Run([Cmd(c)], accepts).outcome
    {
      var ok := Move(Cmd(c), accepts);
      out := if ok then Done else Failed(Cmd(c));
    }

    /** `doRead`: the speed channel's reading and the phase channel's reading, in that order. */
    function DoRead(speedRead: real, phaseRead: real): (p: Position)
      ensures p.speed == speedRead && p.phase == phaseRead
    {
      Position(speedRead, phaseRead)
    }

    /**
     * `doStart(pos)`: if the state channel reads "init", initialize first;
     * then command speed, phase and "start", stopping at the first refusal.
     */
    method DoStart(pos: Position, stateRead: string, accepts: Write -> bool) returns (out: Outcome)
      modifies this`trace
      ensures trace == old(trace) + Run(StartPlan(hasState, stateRead, pos), accepts).issued
      ensures out == Run(StartPlan(hasState, stateRead, pos), accepts).outcome
    {
      StartRun(hasState, stateRead, pos, accepts);
      ghost var pre: seq<Write> := [];
      if hasState && stateRead == "init" {
        out := Initialize(accepts);
        if out.Failed? {
          return;
        }
        pre := [Cmd("init")];
      }
      var ok := Move(Speed(pos.speed), accepts);
      if !ok {
        return Failed(Speed(pos.speed));
      }
      ok := Move(Phase(pos.phase), accepts);
      if !ok {
        assert trace == old(trace) + (pre + [Speed(pos.speed)]);
        return Failed(Phase(pos.phase));
      }
      assert trace == old(trace) + (pre + [Speed(pos.speed), Phase(pos.phase)]);
      out := Command("start", accepts);
    }

    /** `doStop`: command "stop". */
    method DoStop(accepts: Write -> bool) returns (out: Outcome)
      modifies this`trace
      ensures trace == old(trace) + Run([Cmd("stop")], accepts).issued
      ensures out == Run([Cmd("stop")], accepts).outcome
    {
      out := Command("stop", accepts);
    }

    /**
     * `doStatus`: with a state channel, the table entry for its lower-cased
     * reading (KeyError when there is none); without one, a fixed warning.
     */
    function DoStatus(stateRead: string): (r: Result<Status, StatusError>)
      ensures !hasState ==> r == Success(MissingStateStatus)
      ensures hasState ==> (r.Success? <==> Lower(stateRead) in StateMap)
      ensures hasState && r.Success? ==> r.value == StateMap[Lower(stateRead)]
      ensures r.Failure? ==> r.error == UnknownState(Lower(stateRead))
    {
      if hasState then
        var key := Lower(stateRead);
        if key in StateMap then Success(StateMap[key]) else Failure(UnknownState(key))
      else
        Success(MissingStateStatus)
    }

    /** `initialize`: command "init". */
    method Initialize(accepts: Write -> bool) returns (out: Outcome)
      modifies this`trace
      ensures trace == old(trace) + Run([Cmd("init")], accepts).issued
      ensures out == Run([Cmd("init")], accepts).outcome
    {
      out := Command("init", accepts);
    }

    /** `deinitialize`: command "deinit". */
    method Deinitialize(accepts: Write -> bool) returns (out: Outcome)
      modifies this`trace
      ensures trace == old(trace) + Run([Cmd("deinit")], accepts).issued
      ensures out == Run([Cmd("deinit")], accepts).outcome
    {
      out := Command("deinit", accepts);
    }

    /** `parkAt(angle)`: write the park position, then command "park". */
    method ParkAt(angle: real, accepts: Write -> bool) returns (out: Outcome)
      modifies this`trace
      ensures trace == old(trace) + Run(ParkPlan(angle), accepts).issued
      ensures out == Run(ParkPlan(angle), accepts).outcome
    {
      var ok := Move(Park(angle), accepts);
      if !ok {
        return Failed(Park(angle));
      }
      assert ParkPlan(angle)[1..] == [Cmd("park")];
      out := Command("park", accepts);
    }

    /** `unlock`: command "unlock". */
    method Unlock(accepts: Write -> bool) returns (out: Outcome)
      modifies this`trace
      ensures trace == old(trace) + Run([Cmd("unlock")], accepts).issued
      ensures out == Run([Cmd("unlock")], accepts).outcome
    {
      out := Command("unlock", accepts);
    }
  }

  /** A single command issues exactly one write, or none when the command channel refuses it. */
  lemma SingleCommand(c: string, accepts: Write -> bool)
    ensures Run([Cmd(c)], accepts) ==
      if accepts(Cmd(c)) then Effect([Cmd(c)], Done) else Effect([], Failed(Cmd(c)))
  {
  }

  /** When every channel accepts, `doStart` issues `init` (state exactly "init"), speed, phase, "start". */
  lemma StartAllAccepted(hasState: bool, stateRead: string, pos: Position, accepts: Write -> bool)
    requires accepts(Cmd("init")) && accepts(Cmd("start"))
    requires accepts(Speed(pos.speed)) && accepts(Phase(pos.phase))
    ensures Run(StartPlan(hasState, stateRead, pos), accepts) == Effect(
      (if hasState && stateRead == "init" then [Cmd("init")] else [])
        + [Speed(pos.speed), Phase(pos.phase), Cmd("start")],
      Done)
  {
  }

  /**
   * `doStart` issues an `init` command exactly when a state channel is attached,
   * it reads "init" (compared case-sensitively) and the command channel takes
   * the write; the `init` then comes strictly before the speed write.
   */
  lemma StartInitializesIff(hasState: bool, stateRead: string, pos: Position, accepts: Write -> bool)
    ensures Cmd("init") in Run(StartPlan(hasState, stateRead, pos), accepts).issued
      <==> hasState && stateRead == "init" && accepts(Cmd("init"))
    ensures (hasState && stateRead == "init" &&
      Speed(pos.speed) in Run(StartPlan(hasState, stateRead, pos), accepts).issued) ==>
      Run(StartPlan(hasState, stateRead, pos), accepts).issued[..2] == [Cmd("init"), Speed(pos.speed)]
  {
  }

  /** A refused speed write leaves phase and "start" unissued: at most the leading `init` got out. */
  lemma StartSpeedRefused(hasState: bool, stateRead: string, pos: Position, accepts: Write -> bool)
    requires !accepts(Speed(pos.speed))
    ensures Run(StartPlan(hasState, stateRead, pos), accepts).outcome.Failed?
    ensures Run(StartPlan(hasState, stateRead, pos), accepts).issued ==
      if hasState && stateRead == "init" && accepts(Cmd("init")) then [Cmd("init")] else []
  {
  }

  /** `parkAt`: the park position is written strictly before "park", and a refusal suppresses what follows. */
  lemma ParkSequence(angle: real, accepts: Write -> bool)
    ensures !accepts(Park(angle)) ==>
      Run(ParkPlan(angle), accepts) == Effect([], Failed(Park(angle)))
    ensures accepts(Park(angle)) && !accepts(Cmd("park")) ==>
      Run(ParkPlan(angle), accepts) == Effect([Park(angle)], Failed(Cmd("park")))
    ensures accepts(Park(angle)) && accepts(Cmd("park")) ==>
      Run(ParkPlan(angle), accepts) == Effect([Park(angle), Cmd("park")], Done)
  {
  }

  /** `state_map` knows exactly the ten hardware state labels. */
  lemma StateMapLabels()
    ensures StateMap.Keys == {"init", "stopped", "parked", "parking", "accelerating",
      "phase_locking", "phase_locked", "stopping", "idle", "bearings"}
  {
  }

  /** The severities of `state_map`: ERROR only for "init", never WARN. */
  lemma StateMapSeverities(k: string)
    requires k in StateMap
    ensures StateMap[k].severity == ERROR <==> k == "init"
    ensures StateMap[k].severity == OK <==> k in {"stopped", "parked", "phase_locked", "idle"}
    ensures StateMap[k].severity == BUSY <==>
      k in {"parking", "accelerating", "phase_locking", "stopping", "bearings"}
    ensures StateMap[k].severity != WARN
  {
  }

  /** Every key of `state_map` is lower-case, so the lower-cased reading can hit each of them. */
  lemma StateMapKeysLowerCase(k: string)
    requires k in StateMap
    ensures Lower(k) == k
  {
    StateMapKeysNoUpper(k);
    LowerOfLower(k);
  }

  /** No key of `state_map` has an upper-case letter. */
  lemma StateMapKeysNoUpper(k: string)
    requires k in StateMap
    ensures IsLower(k)
  {
  }

  /** `doStatus` ignores the case of the state reading ("Parked" and "parked" agree). */
  lemma StatusIgnoresCase(c: EssChopper, s: string)
    ensures c.DoStatus(s).Success? <==> c.DoStatus(Lower(s)).Success?
    ensures c.DoStatus(s).Success? ==> c.DoStatus(s).value == c.DoStatus(Lower(s)).value
  {
    LowerIdempotent(s);
  }

  /** With a state channel, each known state label reports its table entry. */
  lemma StatusOfKnownState(c: EssChopper, k: string)
    requires c.hasState && k in StateMap
    ensures c.DoStatus(k) == Success(StateMap[k])
  {
    StateMapKeysLowerCase(k);
  }

  /**
   * The `init` check of `doStart` is case-sensitive while `doStatus` is not:
   * a state reading such as "Init" or "INIT" reports ERROR but does not
   * trigger `initialize`.
   */
  lemma InitCheckIsCaseSensitive(c: EssChopper, s: string, pos: Position)
    requires c.hasState && Lower(s) == "init" && s != "init"
    ensures c.DoStatus(s) == Success(Status(ERROR, "Interlocks not fulfilled"))
    ensures Cmd("init") !in StartPlan(c.hasState, s, pos)
  {
  }

  /**
   * The writes the attached channels accept when the command channel is an
   * `EpicsEnumMoveable` with `labels`: a command is refused when its label
   * does not resolve; `transport` says which writes the PV layer takes.
   */
  function CommandChannelAccepts(labels: seq<string>, transport: Write -> bool): (acc: Write -> bool)
    ensures forall w :: acc(w) <==> transport(w) && (w.Cmd? ==> Lower(w.command) in labels)
  {
    w => transport(w) && (w.Cmd? ==> EpicsEnum.Resolve(labels, EpicsEnum.Label(w.command)).Success?)
  }

  /** Any command gets through only if its label is among the command channel's labels. */
  lemma CommandNeedsLabel(labels: seq<string>, transport: Write -> bool, c: string)
    requires IsLower(c)
    ensures CommandChannelAccepts(labels, transport)(Cmd(c)) ==> c in labels
  {
    LowerOfLower(c);
    if CommandChannelAccepts(labels, transport)(Cmd(c)) {
      assert EpicsEnum.Resolve(labels, EpicsEnum.Label(c)).Success?;
    }
  }

  /** `doStart` can only get "start" out when the command channel lists the label "start". */
  lemma StartNeedsStartLabel(labels: seq<string>, transport: Write -> bool,
                             hasState: bool, stateRead: string, pos: Position)
    ensures Cmd("start") in Run(StartPlan(hasState, stateRead, pos), CommandChannelAccepts(labels, transport)).issued
      ==> "start" in labels
  {
    var e := Run(StartPlan(hasState, stateRead, pos), CommandChannelAccepts(labels, transport));
    if Cmd("start") in e.issued {
      var i :| 0 <= i < |e.issued| && e.issued[i] == Cmd("start");
      assert CommandChannelAccepts(labels, transport)(Cmd("start"));
      CommandNeedsLabel(labels, transport, "start");
    }
  }

  /** Before the command channel's labels are fetched, no command at all is issued. */
  lemma UnpopulatedCommandChannel(transport: Write -> bool, c: string)
    ensures Run([Cmd(c)], CommandChannelAccepts([], transport)) == Effect([], Failed(Cmd(c)))
  {
  }

  /** Calling `initialize` twice issues two separate "init" writes; nothing merges them. */
  method InitializeTwice(chopper: EssChopper, accepts: Write -> bool) returns (first: Outcome, second: Outcome)
    requires accepts(Cmd("init"))
    modifies chopper
    ensures first == Done && second == Done
    ensures chopper.trace == old(chopper.trace) + [Cmd("init"), Cmd("init")]
  {
    first := chopper.Initialize(accepts);
    second := chopper.Initialize(accepts);
  }
}
