/**
 * The context-menu service object: per hook name an ordered list of
 * applications, a memo holding one permission check per application
 * profile id, and the ready gate that getApps waits for.
 *
 * registerApp returns before its permission check settles; its work is
 * split into the synchronous registration (RegisterApp), the settling of a
 * memoised check (SettleCheck, the asynchronous tail of hasUserRight) and
 * the run of one queued continuation (RunContinuation, the `.then` body).
 * Each step is specified by the matching function of RegistryState.
 */
module ContextMenuService {

  import opened Options
  import opened UserRights
  import opened ReadyGate
  import opened AppLists
  import opened RegistryState

  /**
   * Registering without an id is registering with id 1, which only users
   * whose profile lists bit 0 (modulo 32) may see.
   */
  lemma OmittedIdIsAdminOnly(profile: Option<seq<int>>)
    ensures EffectiveProfileId(None) == EffectiveProfileId(Some(1))
    ensures HasRight(profile, EffectiveProfileId(None)) <==>
              profile.Some? && exists i :: 0 <= i < |profile.value| && ShiftCount(profile.value[i]) == 0
  {
    AdminDefaultRight(profile);
  }

  class SpinalContextMenuService<A(==)> {
    /** `apps`: hook name to its ordered list of applications. */
    var apps: map<string, seq<A>>
    /** `promiseByAppProfileId`: the one check started per application profile id. */
    var promiseByAppProfileId: map<int, Check>
    /** The `.then` bodies registered on the checks that have not run yet. */
    var continuations: seq<Continuation<A>>
    /** The debounced ready gate. */
    var gate: Gate
    /** Every host profile lookup started, in order. */
    ghost var lookups: seq<int>
    /** Every registration ever made. */
    ghost var registrations: set<Continuation<A>>

    ghost function State(): Registry<A>
      reads this
    {
      Registry(apps, promiseByAppProfileId, continuations, lookups, registrations)
    }

    ghost predicate Valid()
      reads this
    {
      Invariant(State())
    }

    constructor ()
      ensures Valid()
      ensures State() == Initial() && gate == Pending
    {
      apps := map[];
      promiseByAppProfileId := map[];
      continuations := [];
      gate := Pending;
      lookups := [];
      registrations := {};
      InitialInvariant<A>();
    }

    /** `hasUserRight` called directly: triggers the gate and settles to the permission outcome. */
    method HasUserRight(appProfileId: int, now: int, lookup: ProfileLookup) returns (res: Option<bool>)
      requires Valid()
      modifies this`gate
      ensures Valid()
      ensures gate == Trigger(old(gate), now)
      ensures res == UserRight(lookup, appProfileId)
    {
      gate := Trigger(gate, now);
      match lookup {
        case LookupFailed =>
          res := None;
        case Loaded(profile) =>
          var granted := ProfileGrants(profile, appProfileId);
          res := Some(granted);
      }
    }

    /**
     * The synchronous part of `registerApp`: trigger the gate, make the hook's
     * list exist, start a check for a new profile id (which triggers the gate
     * again) and queue the continuation.
     */
    method RegisterApp(hookname: string, app: A, appProfileId: Option<int>, now: int)
      requires Valid()
      modifies this
      ensures Valid()
      ensures State() == Register(old(State()), hookname, app, EffectiveProfileId(appProfileId))
      ensures gate == Trigger(old(gate), now)
    {
      ghost var before := State();
      gate := Trigger(gate, now);
      var id := EffectiveProfileId(appProfileId);
      if hookname !in apps {
        apps := apps[hookname := []];
      }
      if id !in promiseByAppProfileId {
        gate := Trigger(gate, now);
        promiseByAppProfileId := promiseByAppProfileId[id := InFlight];
        lookups := lookups + [id];
      }
      var c := Continuation(hookname, app, id);
      continuations := continuations + [c];
      registrations := registrations + {c};
      RegisterKeepsInvariant(before, hookname, app, id);
    }

    /**
     * The asynchronous tail of the `hasUserRight` call that a first
     * registration started: the host lookup completes and the memoised check
     * settles. Only an in-flight check settles, so none is settled twice.
     */
    method SettleCheck(appProfileId: int, lookup: ProfileLookup)
      requires Valid()
      requires appProfileId in promiseByAppProfileId && promiseByAppProfileId[appProfileId] == InFlight
      modifies this`promiseByAppProfileId
      ensures Valid()
      ensures State() == Settle(old(State()), appProfileId, UserRight(lookup, appProfileId))
    {
      ghost var before := State();
      var outcome: Option<bool>;
      match lookup {
        case LookupFailed =>
          outcome := None;
        case Loaded(profile) =>
          var granted := ProfileGrants(profile, appProfileId);
          outcome := Some(granted);
      }
      promiseByAppProfileId := promiseByAppProfileId[appProfileId := Settled(outcome)];
      SettleKeepsInvariant(before, appProfileId, outcome);
    }

    /**
     * The `.then` body of continuation k, once its check has settled: on
     * access the app is pushed to its hook's list unless already there; on
     * denial or rejection nothing changes. Continuations of settled checks
     * may run in any order.
     */
    method RunContinuation(k: nat)
      requires Valid()
      requires k < |continuations|
      requires promiseByAppProfileId[continuations[k].id] != InFlight
      modifies this`apps, this`continuations
      ensures Valid()
      ensures State() == Resume(old(State()), k)
    {
      ghost var before := State();
      var c := continuations[k];
      var hasAccess := promiseByAppProfileId[c.id] == Settled(Some(true));
      var appsInHooks := apps[c.hook];
      apps := apps[c.hook := Admit(appsInHooks, c.app, hasAccess)];
      continuations := continuations[..k] + continuations[k + 1..];
      ResumeKeepsInvariant(before, k);
    }

    /** The clock advancing to `now`: the debounce timer fires once its deadline has passed. */
    method Tick(now: int)
      requires Valid()
      modifies this`gate
      ensures Valid()
      ensures gate == Elapse(old(gate), now)
    {
      gate := Elapse(gate, now);
    }

    /**
     * `getApps`: None while the call is still waiting, that is while the ready
     * gate is unresolved or, for a registered hook, while some `isShown`
     * promise has not settled; then the hook's apps whose `isShown` neither
     * returned -1 nor threw, in order, and [] for a hook nobody registered.
     */
    function GetApps(hookname: string, shown: A -> Shown): (r: Option<seq<A>>)
      reads this
      ensures r.Some? <==> gate.Resolved? && (hookname in apps ==> AllSettle(apps[hookname], shown))
      ensures r.Some? && hookname !in apps ==> r.value == []
      ensures r.Some? && hookname in apps ==> r.value == Kept(apps[hookname], shown)
    {
      if !gate.Resolved? then None
      else if hookname !in apps then Some([])
      else if !AllSettle(apps[hookname], shown) then None
      else
        VisibleAppsIsKept(apps[hookname], shown);
        Some(VisibleApps(apps[hookname], shown))
    }

    /** What getApps returns holds no duplicate and only apps whose permission check granted access. */
    lemma GetAppsOnlyGranted(hookname: string, shown: A -> Shown)
      requires Valid()
      ensures GetApps(hookname, shown).Some? ==>
                && NoDup(GetApps(hookname, shown).value)
                && forall a :: a in GetApps(hookname, shown).value ==> Admitted(State(), hookname, a)
    {
      if gate.Resolved? && hookname in apps {
        VisibleOnlyAdmitted(State(), hookname, shown);
      }
    }
  }

  /** A profile listing bit 0 grants the masks 1 and 3 but not 2. */
  lemma AdminProfileScenario()
    ensures HasRight(Some([0]), 1) && HasRight(Some([0]), 3) && !HasRight(Some([0]), 2)
  {
    assert Grants(Some([0]).value[0], 1) && Grants(Some([0]).value[0], 3);
    assert !Grants(0, 2);
  }

  /** Two descriptors for the scenarios below. */
  datatype DemoApp = AppD | AppE

  /**
   * A user whose profile lists bit 0 only: of two apps registered under one
   * hook, the one registered with id 1 is admitted and the one registered
   * with id 2 is not.
   */
  lemma GrantedAndDeniedScenario()
    ensures var lookup := Loaded(Some([0]));
            var r0 := Register(Register(Initial<DemoApp>(), "menu", AppD, 1), "menu", AppE, 2);
            var r1 := Settle(Settle(r0, 1, UserRight(lookup, 1)), 2, UserRight(lookup, 2));
            && r1.continuations == [Continuation("menu", AppD, 1), Continuation("menu", AppE, 2)]
            && r1.apps == map["menu" := []]
            && r1.checks == map[1 := Settled(Some(true)), 2 := Settled(Some(false))]
            && Resume(Resume(r1, 0), 0).apps == map["menu" := [AppD]]
  {
    AdminProfileScenario();
    var r0 := Register(Register(Initial<DemoApp>(), "menu", AppD, 1), "menu", AppE, 2);
    assert r0.continuations == [Continuation("menu", AppD, 1), Continuation("menu", AppE, 2)];
    assert r0.apps == map["menu" := []];
    var r1 := Settle(Settle(r0, 1, Some(true)), 2, Some(false));
    assert r1.checks[1] == Settled(Some(true)) && r1.checks[2] == Settled(Some(false));
    assert Admit([], AppD, true) == [AppD];
    var r2 := Resume(r1, 0);
    assert r2.apps == map["menu" := [AppD]];
    assert r2.continuations == [Continuation("menu", AppE, 2)];
  }

  /**
   * Registering one app twice, the second time without an id: one lookup
   * is started, and the list holds the app once after both continuations
   * ran, in registration order (the order JavaScript runs reactions on one
   * promise) and in the opposite order alike.
   */
  lemma DuplicateRegistrationScenario()
    ensures var r0 := Register(Register(Initial<DemoApp>(), "menu", AppD, 1), "menu", AppD, EffectiveProfileId(None));
            var r1 := Settle(r0, 1, UserRight(Loaded(Some([0])), 1));
            && r0.lookups == [1]
            && |r1.continuations| == 2
            && Resume(Resume(r1, 0), 0).apps == map["menu" := [AppD]]
            && Resume(Resume(r1, 1), 0).apps == map["menu" := [AppD]]
  {
    AdminProfileScenario();
    var r0 := Register(Register(Initial<DemoApp>(), "menu", AppD, 1), "menu", AppD, 1);
    assert r0.continuations == [Continuation("menu", AppD, 1), Continuation("menu", AppD, 1)];
    assert r0.apps == map["menu" := []];
    var r1 := Settle(r0, 1, Some(true));
    assert r1.checks[1] == Settled(Some(true));
    assert Admit([], AppD, true) == [AppD];
    assert Admit([AppD], AppD, true) == [AppD];
    var r2 := Resume(r1, 0);
    assert r2.apps == map["menu" := [AppD]];
    assert r2.continuations == [Continuation("menu", AppD, 1)];
    var r3 := Resume(r1, 1);
    assert r3.apps == map["menu" := [AppD]];
    assert r3.continuations == [Continuation("menu", AppD, 1)];
  }

  /**
   * A service where one app registered at time 900 with id 1 has been
   * admitted for a user whose profile lists bit 0; then the queries below.
   */
  method GatedGetAppsScenario()
  {
    var service := new SpinalContextMenuService<DemoApp>();
    service.RegisterApp("menu", AppD, Some(1), 900);
    assert service.continuations == [Continuation("menu", AppD, 1)];
    AdminProfileScenario();
    service.SettleCheck(1, Loaded(Some([0])));
    assert Admit([], AppD, true) == [AppD];
    service.RunContinuation(0);
    QueriesAroundQuietPeriod(service);
  }

  /**
   * getApps waits for the gate: nothing until the quiet period after the
   * registration has passed; then the admitted app, kept although its
   * `isShown` returned false; nothing while an `isShown` never settles; and
   * [] for a hook nobody registered.
   */
  method QueriesAroundQuietPeriod(service: SpinalContextMenuService<DemoApp>)
    requires service.Valid()
    requires service.gate == Armed(1900) && service.apps == map["menu" := [AppD]]
    modifies service
  {
    var hidden: DemoApp -> Shown := _ => Returned(Boolean(false));
    var early := service.GetApps("menu", hidden);
    assert early == None;
    service.Tick(1899);
    assert service.gate == Armed(1900);
    service.Tick(1900);
    AllKeptIsIdentity([AppD], hidden);
    var visible := service.GetApps("menu", hidden);
    assert visible == Some([AppD]);
    var hung: DemoApp -> Shown := _ => Hung;
    var waiting := service.GetApps("menu", hung);
    assert waiting == None;
    var unknown := service.GetApps("other", hidden);
    assert unknown == Some([]);
  }
}
