/** One sweep of the revalidation monitor: it checks every active revocable run against the
  * identity state and withdraws the authorization of those that are no longer entitled, so
  * that their drivers' next checks end them.
  *
  * That a live monitor sweeps while such runs are active is proved in `Monitors`, what a
  * check decides in `Authority`, and what a driver does in `Driver`.
  */
module Supervision {
  import opened Wrappers
  import opened Authority
  import Driver

  /** A run as the sweep sees it. */
  datatype Watched = Watched(kept: Caller, owner: Owner, revocable: bool, latched: Option<Denial>, cancelled: bool, terminal: bool)

  predicate Active(r: Watched) {
    r.revocable && r.latched.None? && !r.terminal
  }

  /** A refusal latches and cancels. */
  function Verified(r: Watched, denial: Option<Denial>): Watched {
    if denial.None? then r else r.(latched := denial, cancelled := true)
  }

  /** The authority before the check of run `i`, in a sweep that checks the active runs in
    * order. */
  function Before(v: Value, runs: seq<Watched>, amids: seq<Amid>, epoch: nat, now: nat, i: nat): Value
    requires i <= |runs| == |amids|
  {
    if i == 0 then v
    else
      var w := Before(v, runs, amids, epoch, now, i - 1);
      if Active(runs[i - 1]) then Decided(w, runs[i - 1].kept, runs[i - 1].owner, RunsWrite, Some(epoch), now, amids[i - 1]).0 else w
  }

  /** Why the sweep refuses run `i`, if it does. */
  function Refusal(v: Value, runs: seq<Watched>, amids: seq<Amid>, epoch: nat, now: nat, i: nat): Option<Denial>
    requires i < |runs| == |amids|
  {
    if !Active(runs[i]) then None
    else Decided(Before(v, runs, amids, epoch, now, i), runs[i].kept, runs[i].owner, RunsWrite, Some(epoch), now, amids[i]).1
  }

  function Refused(v: Value, runs: seq<Watched>, amids: seq<Amid>, epoch: nat, now: nat, n: nat): seq<nat>
    requires n <= |runs| == |amids|
  {
    if n == 0 then []
    else Refused(v, runs, amids, epoch, now, n - 1) + if Refusal(v, runs, amids, epoch, now, n - 1).Some? then [n - 1] else []
  }

  function ActiveOf(runs: seq<Watched>): seq<nat> {
    if runs == [] then []
    else ActiveOf(runs[..|runs| - 1]) + if Active(runs[|runs| - 1]) then [|runs| - 1] else []
  }

  /** The runs withdrawn are those refused, in order. */
  lemma {:induction false} RefusedAreListed(v: Value, runs: seq<Watched>, amids: seq<Amid>, epoch: nat, now: nat, n: nat)
    requires n <= |runs| == |amids|
    ensures var refused := Refused(v, runs, amids, epoch, now, n);
            && (forall i :: i in refused <==> 0 <= i < n && Refusal(v, runs, amids, epoch, now, i).Some?)
            && (forall a, b | 0 <= a < b < |refused| :: refused[a] < refused[b])
  {
    if n > 0 {
      RefusedAreListed(v, runs, amids, epoch, now, n - 1);
      var earlier := Refused(v, runs, amids, epoch, now, n - 1);
      assert forall a | 0 <= a < |earlier| :: earlier[a] in earlier;
    }
  }

  lemma {:induction false} ActiveAreListed(runs: seq<Watched>)
    ensures forall i :: i in ActiveOf(runs) <==> 0 <= i < |runs| && runs[i].revocable && runs[i].latched.None? && !runs[i].terminal
    ensures forall a, b | 0 <= a < b < |ActiveOf(runs)| :: ActiveOf(runs)[a] < ActiveOf(runs)[b]
    decreases |runs|
  {
    if runs != [] {
      ActiveAreListed(runs[..|runs| - 1]);
      var earlier := ActiveOf(runs[..|runs| - 1]);
      assert forall a | 0 <= a < |earlier| :: earlier[a] in earlier;
    }
  }

  /** Checks every active run once, and withdraws the authorization of those refused. */
  method SweepRuns(authority: IdentityAuthority, runs: array<Watched>, epoch: nat, now: nat, amids: seq<Amid>)
    returns (checked: nat, revoked: seq<nat>)
    requires |amids| == runs.Length && |authority.audit| <= AUDIT_CAPACITY
    modifies authority, runs
    ensures authority.Get() == Before(old(authority.Get()), old(runs[..]), amids, epoch, now, runs.Length)
    ensures forall i | 0 <= i < runs.Length ::
              runs[i] == Verified(old(runs[i]), Refusal(old(authority.Get()), old(runs[..]), amids, epoch, now, i))
    ensures forall i | 0 <= i < runs.Length ::
              var r, denial := old(runs[i]), Refusal(old(authority.Get()), old(runs[..]), amids, epoch, now, i);
              runs[i] == Watched(r.kept, r.owner, r.revocable, if denial.Some? then denial else r.latched, r.cancelled || denial.Some?, r.terminal)
    ensures checked == |ActiveOf(old(runs[..]))|
    ensures revoked == Refused(old(authority.Get()), old(runs[..]), amids, epoch, now, runs.Length)
  {
    ghost var v, all := authority.Get(), runs[..];
    checked, revoked := 0, [];
    for i := 0 to runs.Length
      invariant |authority.audit| <= AUDIT_CAPACITY
      invariant authority.Get() == Before(v, all, amids, epoch, now, i)
      invariant forall j | 0 <= j < i :: runs[j] == Verified(all[j], Refusal(v, all, amids, epoch, now, j))
      invariant forall j | i <= j < runs.Length :: runs[j] == all[j]
      invariant checked == |ActiveOf(all[..i])| && revoked == Refused(v, all, amids, epoch, now, i)
    {
      assert all[..i + 1][..i] == all[..i];
      var r := runs[i];
      if r.revocable && r.latched.None? && !r.terminal {
        checked := checked + 1;
        var denial := authority.RunCheck(r.kept, r.owner, Some(epoch), now, amids[i]);
        if denial.Some? {
          runs[i] := r.(latched := denial, cancelled := true);
          revoked := revoked + [i];
        }
      }
    }
    assert all[..runs.Length] == all;
  }

  predicate Credentialed(runs: seq<Watched>) {
    forall i | 0 <= i < |runs| && Active(runs[i]) :: runs[i].kept.source.Credential?
  }

  predicate First(runs: seq<Watched>, first: nat) {
    first < |runs| && Active(runs[first]) && forall j | 0 <= j < first :: !Active(runs[j])
  }

  predicate AllQuiet(amids: seq<Amid>) {
    forall i | 0 <= i < |amids| :: QuietAmid(amids[i])
  }

  lemma {:induction false} SweepStateStays(v: Value, runs: seq<Watched>, amids: seq<Amid>, epoch: nat, now: nat, first: nat, i: nat)
    requires |amids| == |runs| && First(runs, first) && Credentialed(runs) && AllQuiet(amids) && i <= |runs|
    requires v.persistent && v.swept.0 != epoch && v.document.Some?
    ensures var w := Before(v, runs, amids, epoch, now, i);
            if i <= first then w == v else Read(w, epoch, FirstRead(v, amids[first]))
  {
    if i > 0 {
      SweepStateStays(v, runs, amids, epoch, now, first, i - 1);
      if Active(runs[i - 1]) {
        QuietCheckUses(Before(v, runs, amids, epoch, now, i - 1), runs[i - 1].kept, runs[i - 1].owner, amids[i - 1], epoch, now,
                       FirstRead(v, amids[first]));
      }
    }
  }

  /** A sweep that reads the store, nobody else setting the state meanwhile, withdraws the
    * authorization of exactly the active runs that what it read does not entitle. */
  lemma SweepWithdrawsExactly(v: Value, runs: seq<Watched>, amids: seq<Amid>, epoch: nat, now: nat, first: nat, i: nat)
    requires |amids| == |runs| && First(runs, first) && Credentialed(runs) && AllQuiet(amids) && i < |runs|
    requires v.persistent && v.swept.0 != epoch && v.document.Some?
    ensures Refusal(v, runs, amids, epoch, now, i).Some? <==>
              && runs[i].revocable && runs[i].latched.None? && !runs[i].terminal
              && !Entitled(FirstRead(v, amids[first]), runs[i].kept.source.key, runs[i].owner, RunsWrite, now)
  {
    SweepStateStays(v, runs, amids, epoch, now, first, i);
    if Active(runs[i]) {
      QuietCheckUses(Before(v, runs, amids, epoch, now, i), runs[i].kept, runs[i].owner, amids[i], epoch, now, FirstRead(v, amids[first]));
    }
  }

  predicate AllResting(amids: seq<Amid>) {
    forall i | 0 <= i < |amids| :: Resting(amids[i])
  }

  lemma {:induction false} FreshStays(v: Value, runs: seq<Watched>, amids: seq<Amid>, epoch: nat, now: nat, d: Document, i: nat)
    requires |amids| == |runs| && Credentialed(runs) && AllResting(amids) && i <= |runs| && Fresh(v, epoch, d, v.markers)
    ensures Fresh(Before(v, runs, amids, epoch, now, i), epoch, d, v.markers)
  {
    if i > 0 {
      FreshStays(v, runs, amids, epoch, now, d, i - 1);
      if Active(runs[i - 1]) {
        RestingCheckUses(Before(v, runs, amids, epoch, now, i - 1), runs[i - 1].kept, runs[i - 1].owner, amids[i - 1], epoch, now,
                         d, v.markers);
      }
    }
  }

  /** A sweep while the store rests, with no older contents under way, withdraws the
    * authorization of exactly the active runs the store does not entitle, whoever else
    * reads it meanwhile. */
  lemma RestingSweepWithdrawsExactly(v: Value, runs: seq<Watched>, amids: seq<Amid>, epoch: nat, now: nat, i: nat)
    requires |amids| == |runs| && Credentialed(runs) && AllResting(amids) && i < |runs|
    requires v.persistent && v.swept.0 != epoch && v.document.Some? && Caught(v)
    ensures Refusal(v, runs, amids, epoch, now, i).Some? <==>
              && runs[i].revocable && runs[i].latched.None? && !runs[i].terminal
              && !Entitled(Effective(v.document.value, v.markers), runs[i].kept.source.key, runs[i].owner, RunsWrite, now)
  {
    var d := v.document.value;
    FreshStays(v, runs, amids, epoch, now, d, i);
    if Active(runs[i]) {
      RestingCheckUses(Before(v, runs, amids, epoch, now, i), runs[i].kept, runs[i].owner, amids[i], epoch, now, d, v.markers);
    }
  }

  lemma {:induction false} FailureStays(v: Value, runs: seq<Watched>, amids: seq<Amid>, epoch: nat, now: nat, first: nat, i: nat)
    requires |amids| == |runs| && First(runs, first) && Credentialed(runs) && i <= |runs|
    requires v.persistent && v.swept.0 != epoch && v.document.None?
    ensures var w := Before(v, runs, amids, epoch, now, i);
            w.persistent && (if i <= first then w == v else w.swept.0 == epoch && w.swept.1.Some?)
  {
    if i > 0 {
      FailureStays(v, runs, amids, epoch, now, first, i - 1);
      if Active(runs[i - 1]) {
        CheckInSweep(Before(v, runs, amids, epoch, now, i - 1), runs[i - 1].kept, runs[i - 1].owner, epoch, now, amids[i - 1]);
      }
    }
  }

  /** A sweep that cannot read the store withdraws the authorization of every active run of
    * a credential, whatever others do meanwhile. */
  lemma FailedSweepWithdrawsAll(v: Value, runs: seq<Watched>, amids: seq<Amid>, epoch: nat, now: nat, first: nat, i: nat)
    requires |amids| == |runs| && First(runs, first) && Credentialed(runs) && i < |runs|
    requires v.persistent && v.swept.0 != epoch && v.document.None?
    ensures Refusal(v, runs, amids, epoch, now, i).Some? <==> runs[i].revocable && runs[i].latched.None? && !runs[i].terminal
  {
    FailureStays(v, runs, amids, epoch, now, first, i);
    if Active(runs[i]) {
      var w := Before(v, runs, amids, epoch, now, i);
      if i > first {
        FailedSweepRefuses(w, runs[i].kept, runs[i].owner, epoch, now, amids[i]);
      }
    }
  }

  function Code(denial: Denial): Driver.Denial {
    match denial
    case Unauthenticated => Driver.Denial("unauthenticated")
    case Revoked => Driver.Denial("revoked")
    case Expired => Driver.Denial("expired")
    case MissingCapability => Driver.Denial("missing_capability")
    case ProfileOutsideCredential => Driver.Denial("profile_outside_credential")
    case ProfileUnowned => Driver.Denial("profile_unowned")
    case ProfileNotGranted => Driver.Denial("profile_not_granted")
  }

  /** A run that is no longer entitled ends at its driver's next check: once the sweep's
    * withdrawal is among what others did, the run gets no further call, and its stream ends
    * with why and with the terminal event. */
  lemma UnentitledRunEnds(v: Value, runs: seq<Watched>, amids: seq<Amid>, epoch: nat, now: nat, first: nat, i: nat,
                          setup: Driver.Setup, d: Driver.Drive, tick: Driver.Tick)
    requires |amids| == |runs| && First(runs, first) && Credentialed(runs) && AllQuiet(amids) && i < |runs| && Active(runs[i])
    requires v.persistent && v.swept.0 != epoch && v.document.Some?
    requires !Entitled(FirstRead(v, amids[first]), runs[i].kept.source.key, runs[i].owner, RunsWrite, now)
    requires d.point.Checking? && Driver.Fits(d, tick)
    requires var denial := Refusal(v, runs, amids, epoch, now, i); denial.Some? ==> Driver.Revoke(Code(denial.value)) in tick.others
    ensures var e := Driver.Step(setup, d, tick); e.point == Driver.Over(Driver.Runs.WasCancelled) && Driver.EndsWithdrawn(e.log)
  {
    SweepWithdrawsExactly(v, runs, amids, epoch, now, first, i);
    Driver.NextCheckEnds(setup, d, tick);
  }
}
