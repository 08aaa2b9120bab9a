/**
 * The registry's state as a value, and the three steps that change it:
 * the synchronous part of registerApp, the settling of a memoised
 * permission check, and the run of one queued `.then` continuation.
 * The invariant below is what every step preserves.
 */
module RegistryState {

  import opened Options
  import opened AppLists

  /** The id assumed when registerApp is called without one: the admin profile. */
  const AdminProfileId: int := 1

  /** The application profile id registerApp uses for its optional third argument. */
  function EffectiveProfileId(appProfileId: Option<int>): int
  {
    match appProfileId
    case None => AdminProfileId
    case Some(id) => id
  }

  /** A memoised permission check: still in flight, or settled to Some(access) or, on rejection, None. */
  datatype Check = InFlight | Settled(outcome: Option<bool>)

  /** A `.then` body queued by registerApp, waiting on the check for `id`. */
  datatype Continuation<A> = Continuation(hook: string, app: A, id: int)

  /**
   * `apps` and `checks` are the service's `apps` and `promiseByAppProfileId`;
   * `continuations` are the queued `.then` bodies; `lookups` records every host
   * lookup started and `registrations` every registration made.
   */
  datatype Registry<A(==)> = Registry(
    apps: map<string, seq<A>>,
    checks: map<int, Check>,
    continuations: seq<Continuation<A>>,
    lookups: seq<int>,
    registrations: set<Continuation<A>>)

  /** The state of a new service. */
  function Initial<A(==)>(): Registry<A>
  {
    Registry(map[], map[], [], [], {})
  }

  /** `app` is in the list of `hook` by a registration whose check granted access. */
  ghost predicate Admitted<A>(r: Registry<A>, hook: string, app: A)
  {
    exists id :: Continuation(hook, app, id) in r.registrations
                 && id in r.checks && r.checks[id] == Settled(Some(true))
  }

  ghost predicate Invariant<A>(r: Registry<A>)
  {
    && (forall h :: h in r.apps ==> NoDup(r.apps[h]))
    && (forall h, a :: h in r.apps && a in r.apps[h] ==> Admitted(r, h, a))
    && (forall k :: 0 <= k < |r.continuations| ==>
          && r.continuations[k].hook in r.apps
          && r.continuations[k].id in r.checks
          && r.continuations[k] in r.registrations)
    && NoDup(r.lookups)
    && (forall id :: id in r.checks <==> id in r.lookups)
  }

  lemma InitialInvariant<A>()
    ensures Invariant(Initial<A>())
  {
  }

  /**
   * The synchronous part of registerApp with the effective id: the hook's list
   * exists afterwards, a check (and one host lookup) is started only for an id
   * not seen before, and the continuation is queued.
   */
  function Register<A(==)>(r: Registry<A>, hook: string, app: A, id: int): Registry<A>
  {
    var c := Continuation(hook, app, id);
    var isNew := id !in r.checks;
    Registry(
      if hook in r.apps then r.apps else r.apps[hook := []],
      if isNew then r.checks[id := InFlight] else r.checks,
      r.continuations + [c],
      r.lookups + (if isNew then [id] else []),
      r.registrations + {c})
  }

  /** The asynchronous tail of hasUserRight: the check for `id` settles with `outcome`. */
  function Settle<A>(r: Registry<A>, id: int, outcome: Option<bool>): Registry<A>
  {
    r.(checks := r.checks[id := Settled(outcome)])
  }

  /**
   * The `.then` body of continuation k: the app is pushed to its hook's list
   * when its check granted access and it is not already there.
   */
  function Resume<A(==)>(r: Registry<A>, k: nat): Registry<A>
    requires k < |r.continuations| && r.continuations[k].hook in r.apps
    requires r.continuations[k].id in r.checks && r.checks[r.continuations[k].id] != InFlight
  {
    var c := r.continuations[k];
    r.(apps := r.apps[c.hook := Admit(r.apps[c.hook], c.app, r.checks[c.id] == Settled(Some(true)))],
       continuations := r.continuations[..k] + r.continuations[k + 1..])
  }

  /**
   * After a registration the hook has a list, every other list is unchanged,
   * and the lookup for the id is started at most once: a known id reuses its
   * check, a new one adds exactly one lookup.
   */
  lemma RegisterEffects<A>(r: Registry<A>, hook: string, app: A, id: int)
    requires Invariant(r)
    ensures var r' := Register(r, hook, app, id);
            && r'.apps.Keys == r.apps.Keys + {hook}
            && (forall h :: h in r.apps ==> r'.apps[h] == r.apps[h])
            && (hook !in r.apps ==> r'.apps[hook] == [])
            && (id in r.checks ==> r'.checks == r.checks && r'.lookups == r.lookups)
            && (id !in r.checks ==> r'.checks == r.checks[id := InFlight] && r'.lookups == r.lookups + [id])
            && id in r'.lookups && NoDup(r'.lookups)
  {
    assert id in r.checks <==> id in r.lookups;
  }

  lemma RegisterKeepsInvariant<A>(r: Registry<A>, hook: string, app: A, id: int)
    requires Invariant(r)
    ensures Invariant(Register(r, hook, app, id))
  {
    var r' := Register(r, hook, app, id);
    forall h, a | h in r'.apps && a in r'.apps[h]
      ensures Admitted(r', h, a)
    {
      assert h in r.apps && a in r.apps[h];
      var id0 :| Continuation(h, a, id0) in r.registrations
                 && id0 in r.checks && r.checks[id0] == Settled(Some(true));
      assert r'.checks[id0] == Settled(Some(true));
    }
    assert id in r.checks <==> id in r.lookups;
    forall i | i in r'.checks
      ensures i in r'.lookups
    {
      if i != id {
        assert i in r.lookups;
      }
    }
  }

  /** Settling an in-flight check keeps the invariant and leaves every settled check as it was. */
  lemma SettleKeepsInvariant<A>(r: Registry<A>, id: int, outcome: Option<bool>)
    requires Invariant(r)
    requires id in r.checks && r.checks[id] == InFlight
    ensures Invariant(Settle(r, id, outcome))
    ensures Settle(r, id, outcome).checks.Keys == r.checks.Keys
    ensures forall i :: i in r.checks && r.checks[i] != InFlight ==> Settle(r, id, outcome).checks[i] == r.checks[i]
  {
    var r' := Settle(r, id, outcome);
    forall h, a | h in r'.apps && a in r'.apps[h]
      ensures Admitted(r', h, a)
    {
      var id0 :| Continuation(h, a, id0) in r.registrations
                 && id0 in r.checks && r.checks[id0] == Settled(Some(true));
      assert id0 != id;
      assert r'.checks[id0] == Settled(Some(true));
    }
  }

  /**
   * Running a continuation keeps the invariant: in particular no list gains a
   * duplicate, and an app enters a list only by a registration whose check granted access.
   */
  lemma ResumeKeepsInvariant<A>(r: Registry<A>, k: nat)
    requires Invariant(r)
    requires k < |r.continuations| && r.checks[r.continuations[k].id] != InFlight
    ensures Invariant(Resume(r, k))
  {
    var c := r.continuations[k];
    var granted := r.checks[c.id] == Settled(Some(true));
    var r' := Resume(r, k);
    AdmitKeepsNoDup(r.apps[c.hook], c.app, granted);
    AdmitChanges(r.apps[c.hook], c.app, granted);
    forall h, a | h in r'.apps && a in r'.apps[h]
      ensures Admitted(r', h, a)
    {
      if h == c.hook && a !in r.apps[h] {
        assert a == c.app && granted;
        assert Continuation(h, a, c.id) in r'.registrations;
      } else {
        assert Admitted(r, h, a);
      }
    }
    forall j | 0 <= j < |r'.continuations|
      ensures r'.continuations[j] == r.continuations[if j < k then j else j + 1]
    {
    }
  }

  /** Registering the same app twice under one hook leaves it in the list once, whatever the order of the continuations. */
  lemma AdmittedOnce<A>(xs: seq<A>, app: A, first: bool, second: bool)
    requires NoDup(xs)
    ensures NoDup(Admit(Admit(xs, app, first), app, second))
    ensures first || second ==> Admit(Admit(xs, app, first), app, second) == Admit(xs, app, true)
    ensures !first && !second ==> Admit(Admit(xs, app, first), app, second) == xs
  {
    AdmitKeepsNoDup(xs, app, first);
    AdmitKeepsNoDup(Admit(xs, app, first), app, second);
  }

  /** The filtered list of a hook holds no duplicate and only apps admitted by a granting check. */
  lemma VisibleOnlyAdmitted<A>(r: Registry<A>, hook: string, shown: A -> Shown)
    requires Invariant(r) && hook in r.apps
    ensures NoDup(Kept(r.apps[hook], shown))
    ensures forall a :: a in Kept(r.apps[hook], shown) ==> Admitted(r, hook, a)
  {
    KeptMembers(r.apps[hook], shown);
    forall a | a in Kept(r.apps[hook], shown)
      ensures Admitted(r, hook, a)
    {
      KeptElement(r.apps[hook], shown, a);
    }
  }
}
