/**
 * The per-hook application lists: the admission step that the
 * registration's continuation performs, and the visibility filter of
 * `getApps`, which maps every app to itself or to the marker -1 and then
 * drops the markers.
 */
module AppLists {

  import opened Options

  /** No application appears twice. */
  ghost predicate NoDup<A>(xs: seq<A>)
  {
    forall i, j :: 0 <= i < j < |xs| ==> xs[i] != xs[j]
  }

  /** The continuation of registerApp: push the app when access was granted and it is not yet in the list. */
  function Admit<A(==)>(xs: seq<A>, app: A, hasAccess: bool): seq<A>
  {
    if hasAccess && app !in xs then xs + [app] else xs
  }

  /** The list gains `app` at the end exactly when access was granted and it was absent; otherwise it is unchanged. */
  lemma AdmitChanges<A>(xs: seq<A>, app: A, hasAccess: bool)
    ensures |Admit(xs, app, hasAccess)| == |xs| + (if hasAccess && app !in xs then 1 else 0)
    ensures Admit(xs, app, hasAccess)[..|xs|] == xs
    ensures forall b :: b in Admit(xs, app, hasAccess) <==> b in xs || (hasAccess && b == app)
  {
  }

  /** Admission never introduces a duplicate. */
  lemma AdmitKeepsNoDup<A>(xs: seq<A>, app: A, hasAccess: bool)
    requires NoDup(xs)
    ensures NoDup(Admit(xs, app, hasAccess))
  {
  }

  /** Admitting the same app twice is the same as admitting it once. */
  lemma AdmitIdempotent<A>(xs: seq<A>, app: A, hasAccess: bool)
    ensures Admit(Admit(xs, app, hasAccess), app, hasAccess) == Admit(xs, app, hasAccess)
  {
  }

  /** A JavaScript value an `isShown` promise can resolve to, as far as the filter can tell them apart. */
  datatype JsValue = Number(n: int) | Boolean(b: bool) | OtherValue

  /** The outcome of awaiting `isShown(option)`: a value, an exception, or a promise that never settles. */
  datatype Shown = Returned(value: JsValue) | Threw | Hung

  /** The sentinel `-1` by which an app declares itself not applicable. */
  const NotApplicable: Shown := Returned(Number(-1))

  /** The app stays: its `isShown` neither returned `-1` nor threw. A `false` result keeps it. */
  predicate Keeps(s: Shown)
  {
    s.Returned? && s.value != Number(-1)
  }

  /** The per-app step of getApps: the app itself, or None for the marker `-1`. */
  function Mark<A>(app: A, s: Shown): (m: Option<A>)
    ensures m.Some? <==> Keeps(s)
    ensures m.Some? ==> m.value == app
  {
    match s
    case Threw => None
    case Hung => None
    case Returned(v) => if v == Number(-1) then None else Some(app)
  }

  /** `appsInHooks.map(...)`: one mark per app, in order. */
  function MarkAll<A>(apps: seq<A>, shown: A -> Shown): (ms: seq<Option<A>>)
    ensures |ms| == |apps|
  {
    seq(|apps|, i requires 0 <= i < |apps| => Mark(apps[i], shown(apps[i])))
  }

  /** `appRes.filter(itm => itm !== -1)`. */
  function DropMarkers<A>(ms: seq<Option<A>>): seq<A>
    decreases |ms|
  {
    if ms == [] then []
    else (if ms[0].Some? then [ms[0].value] else []) + DropMarkers(ms[1..])
  }

  /** Every `isShown` promise of the list settles, so `Promise.all` over them settles too. */
  predicate AllSettle<A>(apps: seq<A>, shown: A -> Shown)
  {
    forall i :: 0 <= i < |apps| ==> !shown(apps[i]).Hung?
  }

  /** The list getApps resolves to for a hook whose array is `apps`, once every `isShown` has settled. */
  function VisibleApps<A>(apps: seq<A>, shown: A -> Shown): seq<A>
  {
    DropMarkers(MarkAll(apps, shown))
  }

  /** Reference definition of the visibility filter: the kept apps, in their original order. */
  function Kept<A>(apps: seq<A>, shown: A -> Shown): seq<A>
    decreases |apps|
  {
    if apps == [] then []
    else (if Keeps(shown(apps[0])) then [apps[0]] else []) + Kept(apps[1..], shown)
  }

  /** `r` can be obtained from `xs` by deleting elements, without reordering the rest. */
  ghost predicate IsSubsequence<A>(r: seq<A>, xs: seq<A>)
    decreases |xs|
  {
    if r == [] then true
    else if xs == [] then false
    else (r[0] == xs[0] && IsSubsequence(r[1..], xs[1..])) || IsSubsequence(r, xs[1..])
  }

  /** Mapping to markers and then dropping them is the reference filter. */
  lemma {:induction false} VisibleAppsIsKept<A>(apps: seq<A>, shown: A -> Shown)
    ensures VisibleApps(apps, shown) == Kept(apps, shown)
    decreases |apps|
  {
    if apps != [] {
      var ms := MarkAll(apps, shown);
      assert ms[1..] == MarkAll(apps[1..], shown);
      VisibleAppsIsKept(apps[1..], shown);
    }
  }

  /** The kept apps form a subsequence of the hook's list. */
  lemma {:induction false} KeptIsSubsequence<A>(apps: seq<A>, shown: A -> Shown)
    ensures IsSubsequence(Kept(apps, shown), apps)
    decreases |apps|
  {
    if apps != [] {
      KeptIsSubsequence(apps[1..], shown);
      var r := Kept(apps, shown);
      if Keeps(shown(apps[0])) {
        assert r[0] == apps[0] && r[1..] == Kept(apps[1..], shown);
      } else {
        assert r == Kept(apps[1..], shown);
        if r != [] {
          assert IsSubsequence(r, apps[1..]);
        }
      }
    }
  }

  /** An app survives exactly when it is in the list and kept; the filter never grows the list or creates a duplicate. */
  lemma {:induction false} KeptMembers<A>(apps: seq<A>, shown: A -> Shown)
    ensures forall a :: a in Kept(apps, shown) <==> a in apps && Keeps(shown(a))
    ensures |Kept(apps, shown)| <= |apps|
    ensures NoDup(apps) ==> NoDup(Kept(apps, shown))
    decreases |apps|
  {
    if apps != [] {
      var tail := apps[1..];
      KeptMembers(tail, shown);
      assert apps == [apps[0]] + tail;
      if NoDup(apps) {
        assert NoDup(tail) by {
          forall i, j | 0 <= i < j < |tail|
            ensures tail[i] != tail[j]
          {
            assert tail[i] == apps[i + 1] && tail[j] == apps[j + 1];
          }
        }
        assert apps[0] !in tail by {
          forall j | 0 <= j < |tail|
            ensures tail[j] != apps[0]
          {
            assert tail[j] == apps[j + 1];
          }
        }
      }
    }
  }

  /** One element of the filtered list: it comes from the list and is kept. */
  lemma KeptElement<A>(apps: seq<A>, shown: A -> Shown, a: A)
    requires a in Kept(apps, shown)
    ensures a in apps && Keeps(shown(a))
  {
    KeptMembers(apps, shown);
  }

  /** Filtering a concatenation filters each part and keeps the parts in order. */
  lemma {:induction false} KeptDistributes<A>(xs: seq<A>, ys: seq<A>, shown: A -> Shown)
    ensures Kept(xs + ys, shown) == Kept(xs, shown) + Kept(ys, shown)
    decreases |xs|
  {
    if xs != [] {
      assert (xs + ys)[1..] == xs[1..] + ys;
      KeptDistributes(xs[1..], ys, shown);
    } else {
      assert xs + ys == ys;
    }
  }

  /** When every app is kept, the filter returns the whole list. */
  lemma {:induction false} AllKeptIsIdentity<A>(apps: seq<A>, shown: A -> Shown)
    requires forall i :: 0 <= i < |apps| ==> Keeps(shown(apps[i]))
    ensures Kept(apps, shown) == apps
    decreases |apps|
  {
    if apps != [] {
      assert forall i :: 0 <= i < |apps[1..]| ==> Keeps(shown(apps[1..][i])) by {
        forall i | 0 <= i < |apps[1..]|
          ensures Keeps(shown(apps[1..][i]))
        {
          assert apps[1..][i] == apps[i + 1];
        }
      }
      AllKeptIsIdentity(apps[1..], shown);
    }
  }

  /** When every app declines or throws, the filter returns nothing. */
  lemma {:induction false} NoneKeptIsEmpty<A>(apps: seq<A>, shown: A -> Shown)
    requires forall i :: 0 <= i < |apps| ==> !Keeps(shown(apps[i]))
    ensures Kept(apps, shown) == []
    decreases |apps|
  {
    if apps != [] {
      assert forall i :: 0 <= i < |apps[1..]| ==> !Keeps(shown(apps[1..][i])) by {
        forall i | 0 <= i < |apps[1..]|
          ensures !Keeps(shown(apps[1..][i]))
        {
          assert apps[1..][i] == apps[i + 1];
        }
      }
      NoneKeptIsEmpty(apps[1..], shown);
    }
  }
}
