/**
 How often a member's run is recovered (`#recoverMissingRun` in `apps/daemon/src/run-runtime-coordinator.ts`).
 A replacement inherits the attempts and the cooldown of the run it replaces, so they belong to the chain of
 replacements; a start that is not a recovery begins a new chain.
 */
module RunRecovery {
  import opened Wrappers

  datatype Phase = Idle | Reconciling | Restarting | Resuming | Recovered | Exhausted
  datatype Consent = Granted | Required | Denied
  datatype Mode = Restart | ResumeOrRestart | ResumeOnly

  /** What a recovery finds: the time, the launch consent, a session to resume, and whether the launch works. */
  datatype Situation = Situation(now: nat, consent: Consent, mode: Mode, session: bool, afresh: bool, launches: bool)

  datatype Event = Missing(s: Situation) | Settles | Starts

  /** A launch, the cooldown it set, and whether the run was found recovered afterwards, which clears the cooldown. */
  datatype Launch = Launch(at: nat, cooldown: nat, settled: bool)

  datatype Verdict = Spent | Cooling | Withheld | Sessionless | Launching

  /** A native session is resumed unless a fresh start is forced or the policy is to restart. */
  predicate Resumes(s: Situation) {
    !s.afresh && !s.mode.Restart? && s.session
  }

  const DEFAULT_COOLDOWN := 30000

  ghost predicate Spaced(launches: seq<Launch>) {
    forall i :: 0 <= i < |launches| - 1 && !launches[i].settled ==> launches[i].at + launches[i].cooldown <= launches[i + 1].at
  }

  class Recovery {
    const maxAttempts: nat
    const cooldowns: seq<nat>
    var attempts: nat
    var notBefore: Option<nat>
    var phase: Phase
    var failed: bool
    ghost var launches: seq<Launch>
    /** The launches of the chains before. */
    ghost var past: seq<seq<Launch>>

    /** No more launches than attempts are allowed, each a cooldown after the one before unless the run settled between. */
    ghost predicate Limited(chain: seq<Launch>)
    {
      |chain| <= maxAttempts && Spaced(chain) && forall i :: 0 <= i < |chain| ==> chain[i].cooldown == Cooldown(i + 1)
    }

    ghost predicate Valid()
      reads this
    {
      && |launches| == attempts && Limited(launches)
      && (launches != [] && !launches[|launches| - 1].settled ==>
            notBefore == Some(launches[|launches| - 1].at + launches[|launches| - 1].cooldown))
    }

    /** The cooldown before the attempt after the `n`th: the last one listed goes on. */
    function Cooldown(n: nat): nat
      requires n >= 1
    {
      if cooldowns == [] then DEFAULT_COOLDOWN else if n <= |cooldowns| then cooldowns[n - 1] else cooldowns[|cooldowns| - 1]
    }

    constructor (maxAttempts: nat, cooldowns: seq<nat>)
      ensures Valid() && launches == [] && past == [] && this.maxAttempts == maxAttempts && this.cooldowns == cooldowns
    {
      this.maxAttempts, this.cooldowns := maxAttempts, cooldowns;
      attempts, notBefore, phase, failed, launches, past := 0, None, Idle, false, [], [];
    }

    /** Whether a recovery launches, or why it does not. */
    function Judged(s: Situation): Verdict
      reads this
    {
      if attempts >= maxAttempts then Spent
      else if notBefore.Some? && notBefore.value > s.now then Cooling
      else if !s.consent.Granted? then Withheld
      else if s.mode.ResumeOnly? && !s.afresh && !s.session then Sessionless
      else Launching
    }

    /** Takes an attempt before the launch is made, so that an interrupted launch counts. */
    method Reserve(now: nat)
      requires Valid() && attempts < maxAttempts && (notBefore.None? || notBefore.value <= now)
      modifies this`attempts, this`notBefore, this`launches
      ensures Valid() && attempts == old(attempts) + 1 && notBefore == Some(now + Cooldown(attempts))
      ensures launches == old(launches) + [Launch(now, Cooldown(attempts), false)]
    {
      var cooldown := Cooldown(attempts + 1);
      attempts, notBefore := attempts + 1, Some(now + cooldown);
      launches := launches + [Launch(now, cooldown, false)];
    }

    /** A launch happens exactly when an attempt is left, the cooldown is over and consent and policy allow it. */
    method RecoverMissingRun(s: Situation) returns (replaced: bool)
      requires Valid()
      modifies this`attempts, this`notBefore, this`phase, this`failed, this`launches
      ensures Valid()
      ensures replaced <==> old(Judged(s)).Launching? && s.launches
      ensures launches == if old(Judged(s)).Launching? then old(launches) + [Launch(s.now, Cooldown(old(attempts) + 1), false)] else old(launches)
      ensures if old(Judged(s)).Launching? then attempts == old(attempts) + 1 && notBefore == Some(s.now + Cooldown(attempts))
              else attempts == old(attempts) && notBefore == old(notBefore)
      ensures phase == match old(Judged(s))
                       case Cooling => old(phase)
                       case Launching =>
                         if !s.launches then (if attempts >= maxAttempts then Exhausted else Reconciling)
                         else if Resumes(s) then Resuming else Restarting
                       case _ => Exhausted
      ensures failed == match old(Judged(s))
                        case Spent => old(failed) || !s.afresh
                        case Withheld => true
                        case Launching => old(failed) && !s.launches
                        case _ => old(failed)
    {
      if attempts >= maxAttempts {
        failed := failed || !s.afresh;
        phase := Exhausted;
        return false;
      }
      if notBefore.Some? && notBefore.value > s.now { return false; }
      if !s.consent.Granted? {
        failed, phase := true, Exhausted;
        return false;
      }
      phase := Reconciling;
      if !Resumes(s) && s.mode.ResumeOnly? && !s.afresh {
        phase := Exhausted;
        return false;
      }
      phase := if Resumes(s) then Resuming else Restarting;
      Reserve(s.now);
      if !s.launches {
        phase := if attempts >= maxAttempts then Exhausted else Reconciling;
        return false;
      }
      failed := false;
      replaced := true;
    }

    /** The run is found present and settled: its cooldown no longer counts, its attempts still do. */
    method Settle()
      requires Valid()
      modifies this`notBefore, this`phase, this`launches
      ensures Valid() && attempts == old(attempts) && notBefore == None && phase == Recovered && failed == old(failed)
      ensures launches == if old(launches) == [] then [] else old(launches)[|old(launches)| - 1 := old(launches)[|old(launches)| - 1].(settled := true)]
    {
      phase, notBefore := Recovered, None;
      if launches != [] { launches := launches[|launches| - 1 := launches[|launches| - 1].(settled := true)]; }
    }

    /** The member is started anew: its run has no attempts and no cooldown yet. */
    method Start()
      requires Valid()
      modifies this
      ensures Valid() && past == old(past) + [old(launches)] && old(Limited(launches)) && launches == [] && attempts == 0 && notBefore == None && phase == Idle && !failed
    {
      past, launches := past + [launches], [];
      attempts, notBefore, phase, failed := 0, None, Idle, false;
    }

    /**
     Whatever happens, a run is relaunched at most `maxAttempts` times between two starts, and relaunches are a
     cooldown apart unless the run settled in between.
     */
    method Serve(events: seq<Event>)
      requires Valid() && forall k :: 0 <= k < |past| ==> Limited(past[k])
      modifies this
      ensures Valid() && Limited(launches) && forall k :: 0 <= k < |past| ==> Limited(past[k])
      ensures old(past) <= past
    {
      for k := 0 to |events|
        invariant Valid() && old(past) <= past && forall i :: 0 <= i < |past| ==> Limited(past[i])
      {
        match events[k] {
          case Missing(s) => var replaced := RecoverMissingRun(s);
          case Settles => Settle();
          case Starts => Start();
        }
      }
    }
  }
}
