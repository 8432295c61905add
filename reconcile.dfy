/** The role changes made when a verification session concludes, as sets of role ids. */
module Reconcile {

  /** The three configured status role ids. */
  datatype StatusRoles = StatusRoles(verified: int, unverified: int, inProgress: int)

  /** Role ids to add and to remove. */
  datatype Delta = Delta(add: set<int>, remove: set<int>)

  function StatusIds(st: StatusRoles): set<int> {
    {st.verified, st.unverified, st.inProgress}
  }

  predicate DistinctStatuses(st: StatusRoles) {
    st.verified != st.unverified && st.verified != st.inProgress && st.unverified != st.inProgress
  }

  /** Remove first, then add. */
  function Apply(held: set<int>, d: Delta): set<int> {
    (held - d.remove) + d.add
  }

  /** The in-progress role is removed whenever it resolves and is held. */
  function InProgressRemoval(held: set<int>, guildRoles: set<int>, st: StatusRoles): set<int> {
    if st.inProgress in guildRoles && st.inProgress in held then {st.inProgress} else {}
  }

  /** The unverified role is added when it resolves and is not held. */
  function UnverifiedAddition(held: set<int>, guildRoles: set<int>, st: StatusRoles): set<int> {
    if st.unverified in guildRoles && st.unverified !in held then {st.unverified} else {}
  }

  /** The delta of a failed session. */
  function FailureDelta(held: set<int>, guildRoles: set<int>, st: StatusRoles): (d: Delta)
    ensures d.add !! d.remove
    ensures d.add <= guildRoles - held && d.remove <= held
  {
    Delta(UnverifiedAddition(held, guildRoles, st), InProgressRemoval(held, guildRoles, st))
  }

  /** The delta of a successful session, as the code computes it, where `managed` is every
      id the taxonomy lists and `confirmed` the ids of the confirmed roles. */
  function SuccessDeltaAsWritten(held: set<int>, guildRoles: set<int>, st: StatusRoles,
                                 managed: set<int>, confirmed: set<int>): (d: Delta)
    ensures d.add !! d.remove
    ensures d.add <= guildRoles - held && d.remove <= held
  {
    if st.verified !in guildRoles then
      Delta(UnverifiedAddition(held, guildRoles, st), InProgressRemoval(held, guildRoles, st))
    else
      var addVerified := if st.verified !in held then {st.verified} else {};
      var removeUnverified := if st.unverified in guildRoles && st.unverified in held then {st.unverified} else {};
      var addSkills := (confirmed * managed * guildRoles) - held;
      var removeSkills := (held * managed) - confirmed;
      Delta(addVerified + addSkills, InProgressRemoval(held, guildRoles, st) + removeUnverified + removeSkills)
  }

  /** The delta of a successful session with the status roles kept out of the managed set. */
  function SuccessDelta(held: set<int>, guildRoles: set<int>, st: StatusRoles,
                        managed: set<int>, confirmed: set<int>): (d: Delta)
    ensures d.add !! d.remove
    ensures d.add <= guildRoles - held && d.remove <= held
    ensures DistinctStatuses(st) && st.verified in guildRoles ==> st.verified !in d.remove
  {
    SuccessDeltaAsWritten(held, guildRoles, st, managed - StatusIds(st), confirmed)
  }

  /** Every candidate role, status roles included, is listed in the taxonomy, so in an
      update session the verified role the member holds is managed and, not being a
      confirmed skill, is removed. */
  lemma VerifiedRoleStrippedAsWritten()
    ensures var st := StatusRoles(1, 2, 3);
      var d := SuccessDeltaAsWritten({1, 5}, {1, 2, 3, 5}, st, {1, 5}, {5});
      1 in d.remove && 1 !in Apply({1, 5}, d)
  {
  }

  /** Whenever the taxonomy lists the verified role, a holder who does not confirm it
      loses it on success. */
  lemma VerifiedRoleStrippedWhenManaged(held: set<int>, guildRoles: set<int>, st: StatusRoles,
                                        managed: set<int>, confirmed: set<int>)
    requires st.verified in guildRoles && st.verified in held
    requires st.verified in managed && st.verified !in confirmed
    ensures st.verified !in Apply(held, SuccessDeltaAsWritten(held, guildRoles, st, managed, confirmed))
  {
  }

  /** When the taxonomy lists no status role, the corrected delta is the written one. */
  lemma SuccessDeltaAgreesWithoutStatusRoles(held: set<int>, guildRoles: set<int>, st: StatusRoles,
                                             managed: set<int>, confirmed: set<int>)
    requires managed !! StatusIds(st)
    ensures SuccessDelta(held, guildRoles, st, managed, confirmed)
         == SuccessDeltaAsWritten(held, guildRoles, st, managed, confirmed)
  {
    assert managed - StatusIds(st) == managed;
  }

  /** After success the member holds the verified role and, among the managed roles,
      exactly the confirmed ones; the in-progress and unverified roles are gone. */
  lemma SuccessOutcome(held: set<int>, guildRoles: set<int>, st: StatusRoles,
                       managed: set<int>, confirmed: set<int>)
    requires DistinctStatuses(st) && st.verified in guildRoles
    requires confirmed <= guildRoles
    ensures var after := Apply(held, SuccessDelta(held, guildRoles, st, managed, confirmed));
      var skills := managed - StatusIds(st);
      && st.verified in after
      && (st.inProgress in guildRoles ==> st.inProgress !in after)
      && (st.unverified in guildRoles ==> st.unverified !in after)
      && after * skills == confirmed * skills
      && after - skills - StatusIds(st) == held - skills - StatusIds(st)
  {
  }

  /** Applying a success delta and recomputing gives nothing more to do. */
  lemma SuccessDeltaIdempotent(held: set<int>, guildRoles: set<int>, st: StatusRoles,
                               managed: set<int>, confirmed: set<int>)
    requires DistinctStatuses(st)
    ensures var d := SuccessDelta(held, guildRoles, st, managed, confirmed);
      SuccessDelta(Apply(held, d), guildRoles, st, managed, confirmed) == Delta({}, {})
  {
  }

  /** Applying a failure delta and recomputing gives nothing more to do. */
  lemma FailureDeltaIdempotent(held: set<int>, guildRoles: set<int>, st: StatusRoles)
    requires st.unverified != st.inProgress
    ensures var d := FailureDelta(held, guildRoles, st);
      FailureDelta(Apply(held, d), guildRoles, st) == Delta({}, {})
  {
  }

  /** The written delta is not idempotent: a held verified role that the taxonomy lists is
      removed on the first conclusion and the verified role is then missing. */
  lemma SuccessDeltaAsWrittenNotIdempotent()
    ensures var st := StatusRoles(1, 2, 3);
      var d := SuccessDeltaAsWritten({5}, {1, 2, 3, 5}, st, {1, 5}, {5});
      var d2 := SuccessDeltaAsWritten(Apply({5}, d), {1, 2, 3, 5}, st, {1, 5}, {5});
      1 in d.add && 1 in d2.remove
  {
  }

  /** A set is empty or has a member. */
  lemma EmptyOrMember(s: set<int>)
    ensures s == {} || exists x :: x in s
  {
    if forall x :: x !in s {
      assert s == {};
    }
  }

  /** The role lists the conclusion builds by appends, proved to hold exactly the ids of
      `SuccessDeltaAsWritten` or `FailureDelta`: every id the taxonomy lists, status roles
      included, counts as a managed skill role. `heldRoles` is the member's role list. */
  method ConcludeDelta(success: bool, heldRoles: seq<int>, guildRoles: set<int>, st: StatusRoles,
                       managed: set<int>, confirmed: set<int>)
    returns (toAdd: seq<int>, toRemove: seq<int>)
    ensures var held := set r | r in heldRoles;
      var d := if success then SuccessDeltaAsWritten(held, guildRoles, st, managed, confirmed)
               else FailureDelta(held, guildRoles, st);
      (set r | r in toAdd) == d.add && (set r | r in toRemove) == d.remove
  {
    ghost var held := set r | r in heldRoles;
    toAdd := [];
    toRemove := [];
    if st.inProgress in guildRoles && st.inProgress in heldRoles {
      toRemove := toRemove + [st.inProgress];
    }
    if !success || st.verified !in guildRoles {
      if st.unverified in guildRoles && st.unverified !in heldRoles {
        toAdd := toAdd + [st.unverified];
      }
      return;
    }
    if st.verified !in heldRoles {
      toAdd := toAdd + [st.verified];
    }
    if st.unverified in guildRoles && st.unverified in heldRoles {
      toRemove := toRemove + [st.unverified];
    }
    toAdd := AddConfirmedSkills(toAdd, confirmed, managed, guildRoles, heldRoles);
    toRemove := RemoveUnconfirmedSkills(toRemove, heldRoles, managed, confirmed);
  }

  /** The corrected conclusion: the same appends with the status roles kept out of the
      managed set, giving exactly the ids of `SuccessDelta` or `FailureDelta`. */
  method ConcludeDeltaCorrected(success: bool, heldRoles: seq<int>, guildRoles: set<int>, st: StatusRoles,
                                managed: set<int>, confirmed: set<int>)
    returns (toAdd: seq<int>, toRemove: seq<int>)
    ensures var held := set r | r in heldRoles;
      var d := if success then SuccessDelta(held, guildRoles, st, managed, confirmed)
               else FailureDelta(held, guildRoles, st);
      (set r | r in toAdd) == d.add && (set r | r in toRemove) == d.remove
  {
    toAdd, toRemove := ConcludeDelta(success, heldRoles, guildRoles, st, managed - StatusIds(st), confirmed);
  }

  /** The confirmed skill roles the guild has and the member lacks, appended once each (the
      loop over the confirmed roles). */
  method AddConfirmedSkills(toAdd: seq<int>, confirmed: set<int>, skills: set<int>, guildRoles: set<int>,
                            heldRoles: seq<int>)
    returns (r: seq<int>)
    ensures (set x | x in r) == (set x | x in toAdd) + (confirmed * skills * guildRoles - (set x | x in heldRoles))
  {
    ghost var held := set x | x in heldRoles;
    r := toAdd;
    var pending := confirmed;
    while pending != {}
      invariant pending <= confirmed
      invariant (set x | x in r) == (set x | x in toAdd) + ((confirmed - pending) * skills * guildRoles - held)
      decreases pending
    {
      EmptyOrMember(pending);
      var rid :| rid in pending;
      assert confirmed - (pending - {rid}) == (confirmed - pending) + {rid};
      if rid in skills && rid in guildRoles && rid !in heldRoles && rid !in r {
        assert (set x | x in r + [rid]) == (set x | x in r) + {rid};
        r := r + [rid];
      }
      pending := pending - {rid};
    }
  }

  /** The held skill roles that were not confirmed, appended once each (the loop over the
      member's roles). */
  method RemoveUnconfirmedSkills(toRemove: seq<int>, heldRoles: seq<int>, skills: set<int>, confirmed: set<int>)
    returns (r: seq<int>)
    ensures (set x | x in r) == (set x | x in toRemove) + ((set x | x in heldRoles) * skills - confirmed)
  {
    r := toRemove;
    var i := 0;
    while i < |heldRoles|
      invariant 0 <= i <= |heldRoles|
      invariant (set x | x in r) == (set x | x in toRemove) + ((set k | 0 <= k < i :: heldRoles[k]) * skills - confirmed)
    {
      var rid := heldRoles[i];
      if rid in skills && rid !in confirmed && rid !in r {
        r := r + [rid];
      }
      i := i + 1;
    }
    assert (set k | 0 <= k < |heldRoles| :: heldRoles[k]) == set x | x in heldRoles;
  }
}
