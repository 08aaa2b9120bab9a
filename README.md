# SpinalContextMenuService, modelled in Dafny

`SpinalContextMenuService` is the registry behind the context menus of the
Spinal viewer. Application buttons register under a hook name and an
application profile id. Later, the menu asks which of a hook's buttons to show
for the current selection. The service keeps three pieces of state:

- `apps`: each hook name maps to an ordered array of application descriptors.
- `promiseByAppProfileId`: a memo holding one permission check per profile id.
- a ready gate: a deferred that a trailing-edge debounce of 1000 ms resolves
  once. After that the debounced trigger becomes a no-op.

This project models that class and proves the properties its code promises:

- the permission test is a 32-bit bitmask test;
- a missing profile grants nothing (fail-closed);
- a missing id means the admin id 1;
- a permission check is started at most once per id;
- a hook's list never holds a duplicate and holds only apps whose check granted access;
- `getApps` is an order-preserving filter that drops only the sentinel `-1`
  and thrown errors (a `false` result keeps the app);
- the gate, once resolved, stays resolved.

Files:

- `options.dfy`: the `Option` type.
- `user_rights.dfy` (module `UserRights`): the permission test.
  - JavaScript's `1 << p` is written out as the unsigned 32-bit pattern
    2^(p mod 32). JavaScript gives the signed value -2^31 when p mod 32 is 31,
    which has the same bit pattern.
  - `& appProfileId` is a bitwise and on the unsigned 32-bit pattern of the id.
    Only whether the result is zero matters, and that is the same for the
    signed and the unsigned reading.
  - A lemma proves that the expression tests exactly bit (p mod 32) of the mask.
  - The early-exit `for` loop of `hasUserRight` is the method `ProfileGrants`.
  - One consequence of the wrap-around: a profile entry 32 (or 64, ...) grants
    the admin mask 1 just like entry 0. `AdminMaskGrants` states this.
- `ready_gate.dfy` (module `ReadyGate`): the debounce gate as a state machine.
  - States: `Pending`, `Armed(deadline)` and `Resolved`.
  - Each trigger call re-arms the deadline to now + 1000 unless the gate is resolved.
  - The timer fires once its deadline has passed.
  - Lemmas about runs of events state terminality and when the gate resolves.
- `app_lists.dfy` (module `AppLists`): the per-hook lists.
  - `Admit` is the `.then` body's push.
  - `VisibleApps` is `getApps`'s map to the app or `-1`, followed by the filter.
  - `Kept` is an independent recursive reference filter. `VisibleApps` is
    proved equal to it, and it is proved a subsequence.
- `registry_state.dfy` (module `RegistryState`): the service state as a value.
  - It holds the apps, the memo, the queued `.then` continuations, and the
    history of lookups and registrations.
  - It has three steps:
    - `Register` is the synchronous part of `registerApp`.
    - `Settle` is the asynchronous tail of `hasUserRight`: the memoised check settles.
    - `Resume` runs one queued `.then` body.
  - The invariant every step preserves is also here.
- `context_menu_service.dfy` (module `ContextMenuService`): the class `SpinalContextMenuService`.
  - `apps` and `promiseByAppProfileId` are the source's fields of those names.
  - `gate` stands for the two source fields `appRdy` (the deferred) and
    `debouncedRdy` (the debounced trigger, later the no-op).
  - `continuations` holds the pending `.then` reactions. In the source the
    memoised promises hold them, not the service object.
  - The ghost fields `lookups` and `registrations` record history for the proofs.
    They have no counterpart in the source.
  - `RegisterApp`, `SettleCheck` and `RunContinuation` are specified by the
    steps `Register`, `Settle` and `Resume` of `RegistryState`.
  - `HasUserRight` is specified by `UserRight` and `Trigger`, and `Tick` by `Elapse`.
  - `GetApps` is a function that reads the object.
- `link_and_manage_connector.dfy` (module `LinkAndManageConnector`): the
  `isShown` predicate of one registered button. It is an example of what
  `getApps` filters with.

Host I/O is a parameter:

- The user profile lookup (`spinalSystem.init`, `getUser`, `load`) becomes a
  `ProfileLookup`. It is either the loaded profile (possibly missing) or a failure.
- A failure makes the `hasUserRight` promise reject. A rejected check is
  memoised as `Settled(None)`, and its continuations never push.
- The clock becomes the `now` argument of the calls and of `Tick`.
- `isShown` becomes a function from descriptor to its outcome (`Shown`): the
  value its promise resolved to, `Threw`, or `Hung` for a promise that never settles.

`registerApp` returns before its check settles. The model therefore splits it:

- one synchronous step;
- a settling step for each memoised check;
- one step per queued continuation.

Continuations may run in any order once their check has settled. This is a
superset of the orders JavaScript's microtask queue produces. So the
invariants, which hold after every step of every run, hold for the real order too.
A scenario that runs reactions of one promise out of registration order
describes a run JavaScript never makes. `DuplicateRegistrationScenario` therefore
proves its result for the registration order as well as for the reverse one.

`getApps` awaits the gate, then `Promise.all` over the hook's `isShown`
promises. The model returns `None` while the call is still waiting:
- while the gate is unresolved;
- for a registered hook, while some `isShown` promise never settles (`Hung`).

## Model

| member | source | states |
|---|---|---|
| UserRights.ShiftAndTestIsBitTest | node_modules/spinal-env-viewer-context-menu-service/SpinalContextMenuService.js:71 | `((1 << p) & id) !== 0` on 32-bit integers holds iff bit (p mod 32) of the 32-bit pattern of id is set |
| UserRights.ShiftAndTest | node_modules/spinal-env-viewer-context-menu-service/SpinalContextMenuService.js:71 | the expression `((1 << p) & id) !== 0` on 32-bit patterns; its meaning is stated by ShiftAndTestIsBitTest |
| UserRights.ProfileGrants | node_modules/spinal-env-viewer-context-menu-service/SpinalContextMenuService.js:68-74 | the early-exit loop returns true iff a profile is present and some entry grants the mask; false for a missing profile |
| UserRights.AdminMaskGrants | node_modules/spinal-env-viewer-context-menu-service/SpinalContextMenuService.js:71 | the mask 1 is granted by an entry p iff p mod 32 == 0 |
| UserRights.AdminDefaultRight | node_modules/spinal-env-viewer-context-menu-service/SpinalContextMenuService.js:94 | a user holds the admin id 1 iff the profile is present and lists some p with p mod 32 == 0 |
| ContextMenuService.OmittedIdIsAdminOnly | node_modules/spinal-env-viewer-context-menu-service/SpinalContextMenuService.js:88-95 | registering without an id uses id 1, so only users whose profile lists bit 0 (mod 32) are admitted |
| ContextMenuService.AdminProfileScenario | node_modules/spinal-env-viewer-context-menu-service/SpinalContextMenuService.js:68-74 | a profile listing bit 0 grants the masks 1 and 3 but not 2 |
| ReadyGate.Trigger | node_modules/spinal-env-viewer-context-menu-service/SpinalContextMenuService.js:43-50 | a call of `debouncedRdy` at `now`: re-arms the timer for now + 1000, and does nothing once resolved; characterised by the run lemmas below |
| ReadyGate.Elapse | node_modules/spinal-env-viewer-context-menu-service/SpinalContextMenuService.js:43-50 | the debounce timer firing once its deadline has passed and resolving `appRdy`; characterised by the run lemmas below |
| ReadyGate.ResolvedIsTerminal | node_modules/spinal-env-viewer-context-menu-service/SpinalContextMenuService.js:44-47 | after resolving, no sequence of trigger calls or clock steps changes the gate |
| ReadyGate.StaysResolved | node_modules/spinal-env-viewer-context-menu-service/SpinalContextMenuService.js:42-50 | the gate resolves at most once: a run that resolved stays resolved after any further events |
| ReadyGate.GateTracksLastCall | node_modules/spinal-env-viewer-context-menu-service/SpinalContextMenuService.js:43-50 | a fresh gate is pending iff it was never triggered, and an armed gate is due 1000 after the last trigger call |
| ReadyGate.ResolvesAfterQuietPeriod | node_modules/spinal-env-viewer-context-menu-service/SpinalContextMenuService.js:43-50 | an unresolved gate resolves at a clock step iff it was triggered and 1000 have passed since the last call |
| ReadyGate.BurstExample | node_modules/spinal-env-viewer-context-menu-service/SpinalContextMenuService.js:43-50 | calls at 0, 300 and 900 leave the gate armed at 1000 and 1899 and resolve it at 1900 |
| AppLists.Admit | node_modules/spinal-env-viewer-context-menu-service/SpinalContextMenuService.js:111-112 | the `.then` body's guarded push; stated by AdmitChanges, AdmitKeepsNoDup and AdmitIdempotent |
| AppLists.AdmitChanges | node_modules/spinal-env-viewer-context-menu-service/SpinalContextMenuService.js:109-113 | the list gains the app at the end iff access was granted and it was absent; the old prefix is kept |
| AppLists.AdmitKeepsNoDup | node_modules/spinal-env-viewer-context-menu-service/SpinalContextMenuService.js:111-112 | the push never creates a duplicate |
| AppLists.AdmitIdempotent | node_modules/spinal-env-viewer-context-menu-service/SpinalContextMenuService.js:111-112 | running the same continuation twice has the effect of running it once |
| AppLists.Mark | node_modules/spinal-env-viewer-context-menu-service/SpinalContextMenuService.js:135-141 | an app maps to itself iff `isShown` neither returned -1 nor threw; a `false` result keeps it |
| AppLists.AllSettle | node_modules/spinal-env-viewer-context-menu-service/SpinalContextMenuService.js:134-144 | every `isShown` promise of the list settles, which `Promise.all` needs before getApps can go on |
| AppLists.VisibleApps | node_modules/spinal-env-viewer-context-menu-service/SpinalContextMenuService.js:134-145 | the `map` to the app or -1 followed by the `filter`; stated by VisibleAppsIsKept and the lemmas on Kept |
| AppLists.VisibleAppsIsKept | node_modules/spinal-env-viewer-context-menu-service/SpinalContextMenuService.js:134-145 | map-to-marker then drop-markers equals the recursive filter of kept apps |
| AppLists.KeptIsSubsequence | node_modules/spinal-env-viewer-context-menu-service/SpinalContextMenuService.js:144-145 | the result is a subsequence of the hook's list in registration order |
| AppLists.KeptMembers | node_modules/spinal-env-viewer-context-menu-service/SpinalContextMenuService.js:134-145 | an app is in the result iff it is in the list and kept; the result is no longer and keeps the list free of duplicates |
| AppLists.KeptDistributes | node_modules/spinal-env-viewer-context-menu-service/SpinalContextMenuService.js:145 | filtering a concatenation is the concatenation of the filtered parts, in order |
| AppLists.AllKeptIsIdentity | node_modules/spinal-env-viewer-context-menu-service/SpinalContextMenuService.js:134-145 | when every app is kept the whole list is returned |
| AppLists.NoneKeptIsEmpty | node_modules/spinal-env-viewer-context-menu-service/SpinalContextMenuService.js:134-145 | when every app returned -1 or threw the result is empty |
| RegistryState.EffectiveProfileId | node_modules/spinal-env-viewer-context-menu-service/SpinalContextMenuService.js:88-95 | the id used: the given one, or 1 when it is omitted; stated by OmittedIdIsAdminOnly |
| RegistryState.Register | node_modules/spinal-env-viewer-context-menu-service/SpinalContextMenuService.js:97-107 | the synchronous part of registerApp on the state; stated by RegisterEffects and RegisterKeepsInvariant |
| RegistryState.Settle | node_modules/spinal-env-viewer-context-menu-service/SpinalContextMenuService.js:64-74 | the memoised check for an id settling with its outcome; stated by SettleKeepsInvariant |
| RegistryState.Resume | node_modules/spinal-env-viewer-context-menu-service/SpinalContextMenuService.js:109-114 | one `.then` reaction of a settled check running and leaving the queue; stated by ResumeKeepsInvariant |
| RegistryState.InitialInvariant | node_modules/spinal-env-viewer-context-menu-service/SpinalContextMenuService.js:39-41 | the empty registry satisfies the invariant |
| RegistryState.RegisterEffects | node_modules/spinal-env-viewer-context-menu-service/SpinalContextMenuService.js:97-107 | after registering, the hook has a list ([] if new), other lists are unchanged, a known id reuses its check and adds no lookup, a new id adds one in-flight check and one lookup, and no id is looked up twice |
| RegistryState.RegisterKeepsInvariant | node_modules/spinal-env-viewer-context-menu-service/SpinalContextMenuService.js:86-114 | the synchronous part of registerApp keeps the invariant (no duplicates, only admitted apps, one lookup per memoised id) |
| RegistryState.SettleKeepsInvariant | node_modules/spinal-env-viewer-context-menu-service/SpinalContextMenuService.js:62-75 | settling an in-flight check keeps the invariant, keeps the memo's keys and changes no settled check |
| RegistryState.ResumeKeepsInvariant | node_modules/spinal-env-viewer-context-menu-service/SpinalContextMenuService.js:109-114 | running a continuation keeps the invariant: lists stay duplicate-free and gain only apps whose check granted access |
| RegistryState.AdmittedOnce | node_modules/spinal-env-viewer-context-menu-service/SpinalContextMenuService.js:109-113 | two continuations for the same app leave it in the list once if either was granted, and leave the list unchanged otherwise |
| RegistryState.VisibleOnlyAdmitted | node_modules/spinal-env-viewer-context-menu-service/SpinalContextMenuService.js:134-145 | a hook's filtered list has no duplicate and only apps admitted by a granting check |
| ContextMenuService.SpinalContextMenuService.constructor | node_modules/spinal-env-viewer-context-menu-service/SpinalContextMenuService.js:39-51 | a new service has no hooks, no checks, no continuations and a pending gate, and satisfies the invariant |
| ContextMenuService.SpinalContextMenuService.HasUserRight | node_modules/spinal-env-viewer-context-menu-service/SpinalContextMenuService.js:62-75 | triggers the gate and settles to Some(access) for a loaded profile (false if missing), None when the lookup fails |
| ContextMenuService.SpinalContextMenuService.RegisterApp | node_modules/spinal-env-viewer-context-menu-service/SpinalContextMenuService.js:86-108 | the new state is Register of the old one with id 1 for a missing id; the gate is triggered; the invariant is kept |
| ContextMenuService.SpinalContextMenuService.SettleCheck | node_modules/spinal-env-viewer-context-menu-service/SpinalContextMenuService.js:64-74 | an in-flight check settles to the permission outcome of the lookup; the invariant is kept |
| ContextMenuService.SpinalContextMenuService.RunContinuation | node_modules/spinal-env-viewer-context-menu-service/SpinalContextMenuService.js:109-114 | the continuation of a settled check runs once and is removed; the new state is Resume of the old one; the invariant is kept |
| ContextMenuService.SpinalContextMenuService.Tick | node_modules/spinal-env-viewer-context-menu-service/SpinalContextMenuService.js:43-50 | the gate's timer fires when its deadline has passed |
| ContextMenuService.SpinalContextMenuService.GetApps | node_modules/spinal-env-viewer-context-menu-service/SpinalContextMenuService.js:125-145 | a result exists iff the gate has resolved and, for a registered hook, every `isShown` settled; it is [] for an unknown hook and otherwise the reference filter of the hook's list |
| ContextMenuService.SpinalContextMenuService.GetAppsOnlyGranted | node_modules/spinal-env-viewer-context-menu-service/SpinalContextMenuService.js:125-145 | what getApps returns has no duplicate and holds only apps admitted by a granting check |
| ContextMenuService.GrantedAndDeniedScenario | node_modules/spinal-env-viewer-context-menu-service/SpinalContextMenuService.js:86-114 | with a profile listing bit 0, of two apps with ids 1 and 2 only the first is admitted |
| ContextMenuService.DuplicateRegistrationScenario | node_modules/spinal-env-viewer-context-menu-service/SpinalContextMenuService.js:86-114 | registering one app with id 1 and then without an id starts one lookup and leaves it in the list once, with the continuations run in registration order and in reverse order |
| ContextMenuService.GatedGetAppsScenario | node_modules/spinal-env-viewer-context-menu-service/SpinalContextMenuService.js:86-145 | a client run: register at 900, settle and run the continuation; getApps gives nothing before 1900, the app at 1900 even though `isShown` returned false, nothing while `isShown` hangs, and [] for an unknown hook |
| LinkAndManageConnector.IsShown | src/buttons/LinkAndManageConnectorBtn.js:45-52 | the button is kept iff the selected node is the context node and has type Network; otherwise it returns the sentinel -1 |
| LinkAndManageConnector.ConnectorButtonFiltered | src/buttons/LinkAndManageConnectorBtn.js:45-52 | filtering with this button's `isShown` keeps the whole list on a selected Network context node and nothing otherwise |

## Left out

- An `isShown` promise that settles only after a while is represented by its
  final outcome, so the wait before it settles is not modelled. Only a
  promise that never settles (`Hung`) keeps `getApps` waiting.
- Timing internals. `Q.defer`, `async`/`await` scheduling and lodash's
  `debounce` are modelled only through the gate's three states and an explicit clock.
- Microtask order. Continuations may run in any order once their check has
  settled. The model does not fix the order JavaScript uses.
- Host I/O. `spinalSystem.init`, `getUser` and `load` are replaced by the
  `ProfileLookup` parameter. The user profile path is not modelled.
- Logging. `console.warn` (the deprecation notice) and `console.error` are not modelled.
- The aggregate catch of `getApps`. The per-app `try`/`catch` already turns
  every failure into `-1`, so the catch around `Promise.all` that returns []
  cannot be reached by the modelled outcomes.
- The unhandled rejection when a check that registerApp started fails. It is
  modelled as a check settled to `None` whose continuations do nothing.
- Reference identity.
  - Descriptors are values of a type parameter compared with `==`. The
    source's `indexOf` uses `===` on objects.
  - `LinkAndManageConnector.IsShown` compares nodes by value where the
    source uses `===`. Nodes are datatypes here.
- The `openPanel` action and the button's label, icon and colours.
  They are UI wiring into the panel-manager library.
- Non-integer numbers.
  - Profile entries and profile ids are integers.
  - `NaN`, fractions and the string conversion of memo keys are not modelled.
- Object-prototype keys. A hook name such as `__proto__` or `toString`,
  which a plain JavaScript object resolves through its prototype, is treated
  like any other string.
