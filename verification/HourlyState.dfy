/** Which route an hour can afford, and when the study leaves its defence (docs/planning/evidence/simulate_integrated_economy.py). */
module HourlyState {
  import opened HourlyPlan

  // ---------------------------------------------------------------------------------------------
  // The affordable core

  predicate Fits(b: Budget, base: nat -> nat, route: seq<nat>)
    requires 0 < b.divisor
  {
    MinimumPromise(b, Rewards(base, route)) <= b.room
  }

  /** The minimum core first, then the cheapest provider alone; an empty core is no candidate. */
  function Candidates(core: seq<nat>, byRate: seq<nat>): seq<seq<nat>>
  {
    (if core == [] then [] else [core]) + (if byRate == [] then [] else [byRate[..1]])
  }

  /** The search breaks at the first candidate that fits; without one the minimum core itself stays. */
  method AffordableCore(b: Budget, base: nat -> nat, core: seq<nat>, byRate: seq<nat>) returns (chosen: seq<nat>)
    requires 0 < b.divisor && (core == [] <==> byRate == [])
    ensures Fits(b, base, core) ==> chosen == core
    ensures !Fits(b, base, core) && byRate != [] && Fits(b, base, byRate[..1]) ==> chosen == byRate[..1]
    ensures !Fits(b, base, chosen) ==> chosen == core && forall c :: c in Candidates(core, byRate) ==> !Fits(b, base, c)
    ensures chosen == core || (byRate != [] && chosen == byRate[..1])
    ensures chosen == [] <==> core == []
  {
    hide Rewards, MinimumPromise;
    var candidates := Candidates(core, byRate);
    assert core != [] ==> |candidates| == 2 && candidates[0] == core && candidates[1] == byRate[..1];
    var affordable := [];
    var i := 0;
    while i < |candidates|
      invariant 0 <= i <= |candidates|
      invariant forall j :: 0 <= j < i ==> !Fits(b, base, candidates[j])
      invariant affordable == [] && (core == [] ==> |candidates| == 0)
    {
      if Fits(b, base, candidates[i]) {
        assert i == 0 || (i == 1 && !Fits(b, base, core));
        affordable := candidates[i];
        break;
      }
      i := i + 1;
    }
    chosen := if affordable != [] then affordable else core;
  }

  // ---------------------------------------------------------------------------------------------
  // Defence and recovery

  datatype Watch = Watch(inDefense: bool, stable: nat)

  function Watched(w: Watch, fits: bool, needed: nat): Watch
  {
    if !fits then Watch(true, 0)
    else if !w.inDefense then w
    else if w.stable + 1 >= needed then Watch(false, 0)
    else Watch(true, w.stable + 1)
  }

  /** The state after a run of hours; `fits` says of each whether it could afford a minimum route. */
  function After(fits: seq<bool>, needed: nat): Watch
  {
    if fits == [] then Watch(false, 0) else Watched(After(fits[..|fits| - 1], needed), fits[|fits| - 1], needed)
  }

  /** For how many hours, up to now, a minimum route was affordable without interruption. */
  function Streak(fits: seq<bool>): (n: nat)
    ensures n <= |fits| && (forall i :: |fits| - n <= i < |fits| ==> fits[i])
    ensures n < |fits| ==> !fits[|fits| - 1 - n]
  {
    if fits == [] || !fits[|fits| - 1] then 0 else 1 + Streak(fits[..|fits| - 1])
  }

  /** The study is in defence exactly when some hour was unaffordable and fewer than the required hours have followed it. */
  lemma {:induction false} DefenceIsExact(fits: seq<bool>, needed: nat)
    ensures var w := After(fits, needed); var n := Streak(fits);
            && (w.inDefense <==> n < |fits| && n < Max(1, needed))
            && w.stable == (if w.inDefense then n else 0)
  {
    if fits != [] {
      DefenceIsExact(fits[..|fits| - 1], needed);
    }
  }

  datatype State = QuorumBlocked | HibernatingCash | HibernatingCapacity | Normal | Defense | Recovery | HibernatingCredits

  function StateOf(quorum: bool, cash: bool, core: seq<nat>, w: Watch, reserveSuffices: bool): State
  {
    if !quorum then QuorumBlocked
    else if !cash then HibernatingCash
    else if core == [] then HibernatingCapacity
    else if !w.inDefense then Normal
    else if reserveSuffices then (if w.stable > 0 then Recovery else Defense)
    else HibernatingCredits
  }

  /**
   The assertion about the core is safe: an hour is NORMAL only when its core fits the room, and only when every
   required hour since the last unaffordable one could afford a route.
   */
  lemma {:induction false} NormalCanContract(
    b: Budget, base: nat -> nat, core: seq<nat>, past: seq<bool>, needed: nat, quorum: bool, cash: bool, reserveSuffices: bool)
    requires 0 < b.divisor
    ensures var fits := past + [core != [] && Fits(b, base, core)];
            StateOf(quorum, cash, core, After(fits, needed), reserveSuffices) == Normal ==>
              && MinimumPromise(b, Rewards(base, core)) <= b.room
              && forall i :: Max(0, |fits| - Max(1, needed)) <= i < |fits| ==> fits[i]
  {
    var fits := past + [core != [] && Fits(b, base, core)];
    DefenceIsExact(fits, needed);
  }

  class Watchman {
    var inDefense: bool
    var recoveryStable: nat

    function View(): Watch reads this { Watch(inDefense, recoveryStable) }

    constructor ()
      ensures View() == Watch(false, 0)
    {
      inDefense, recoveryStable := false, 0;
    }

    method Observe(core: seq<nat>, room: int, minimumPromise: int, needed: nat)
      modifies this
      ensures View() == Watched(old(View()), core != [] && minimumPromise <= room, needed)
    {
      if core == [] || room < minimumPromise {
        inDefense := true;
        recoveryStable := 0;
      } else if inDefense {
        recoveryStable := recoveryStable + 1;
        if recoveryStable >= needed {
          inDefense := false;
          recoveryStable := 0;
        }
      }
    }
  }
}
