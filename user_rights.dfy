/**
 * The permission test of `hasUserRight`: a user profile lists bit indices,
 * an application profile id is a bitmask, and the user may see the
 * application when one of the listed bits is set in the mask.
 * JavaScript's `1 << p` and `&` work on 32-bit integers; both are written out here.
 */
module UserRights {

  import opened Options

  /** 2^32: JavaScript's ToInt32 and ToUint32 reduce modulo this. */
  const TwoTo32: nat := 0x1_0000_0000

  /** The 32-bit pattern JavaScript's ToInt32 gives to an integer, read as unsigned. */
  function ToUint32(x: int): (r: nat)
    ensures r < TwoTo32
  {
    x % TwoTo32
  }

  /** The shift count of `1 << x`: ToUint32(x) & 31, which is x modulo 32. */
  function ShiftCount(x: int): (r: nat)
    ensures r < 32
  {
    x % 32
  }

  function Pow2(n: nat): (r: nat)
    ensures r >= 1
  {
    if n == 0 then 1 else 2 * Pow2(n - 1)
  }

  /** Bitwise and of two non-negative integers, one binary digit at a time. */
  function BitAnd(a: nat, b: nat): (r: nat)
    ensures r <= a && r <= b
    decreases a
  {
    if a == 0 || b == 0 then 0
    else 2 * BitAnd(a / 2, b / 2) + (if a % 2 == 1 && b % 2 == 1 then 1 else 0)
  }

  /** Bit s of m, counting from the least significant bit 0. */
  predicate HasBit(m: nat, s: nat)
    decreases s
  {
    if s == 0 then m % 2 == 1 else HasBit(m / 2, s - 1)
  }

  /** The expression `((1 << p) & appProfileId) !== 0` on 32-bit integers. */
  predicate ShiftAndTest(p: int, appProfileId: int)
  {
    BitAnd(Pow2(ShiftCount(p)), ToUint32(appProfileId)) != 0
  }

  /** What the test means: bit (p mod 32) of the 32-bit mask appProfileId is set. */
  predicate Grants(p: int, appProfileId: int)
  {
    HasBit(ToUint32(appProfileId), ShiftCount(p))
  }

  lemma {:induction false} BitAndPow2(s: nat, m: nat)
    ensures BitAnd(Pow2(s), m) != 0 <==> HasBit(m, s)
    decreases s
  {
    if s > 0 {
      assert Pow2(s) % 2 == 0 && Pow2(s) / 2 == Pow2(s - 1);
      BitAndPow2(s - 1, m / 2);
    }
  }

  /** The shift-and expression of the source tests exactly one bit of the mask. */
  lemma ShiftAndTestIsBitTest(p: int, appProfileId: int)
    ensures ShiftAndTest(p, appProfileId) <==> Grants(p, appProfileId)
  {
    BitAndPow2(ShiftCount(p), ToUint32(appProfileId));
  }

  lemma {:induction false} NoBitOfZero(s: nat)
    ensures !HasBit(0, s)
    decreases s
  {
    if s > 0 {
      NoBitOfZero(s - 1);
    }
  }

  /** The mask 1 (the admin profile) is granted exactly by the profile entries p with p mod 32 == 0. */
  lemma AdminMaskGrants(p: int)
    ensures Grants(p, 1) <==> ShiftCount(p) == 0
  {
    if ShiftCount(p) > 0 {
      NoBitOfZero(ShiftCount(p) - 1);
    }
  }

  /**
   * The user may see the application profile: a profile was loaded and
   * one of its entries grants the mask. An absent profile grants nothing.
   */
  ghost predicate HasRight(profile: Option<seq<int>>, appProfileId: int)
  {
    profile.Some? && exists i :: 0 <= i < |profile.value| && Grants(profile.value[i], appProfileId)
  }

  /** The outcome of the host's profile lookup: the record (null when missing), or a failure. */
  datatype ProfileLookup = Loaded(profile: Option<seq<int>>) | LookupFailed

  /**
   * What the promise returned by `hasUserRight` settles to: Some(access) when it
   * resolves, None when the lookup fails and the promise rejects.
   */
  ghost function UserRight(lookup: ProfileLookup, appProfileId: int): Option<bool>
  {
    match lookup
    case Loaded(profile) => Some(HasRight(profile, appProfileId))
    case LookupFailed => None
  }

  /** The early-exit loop of `hasUserRight` over the profile's entries. */
  method ProfileGrants(profile: Option<seq<int>>, appProfileId: int) returns (res: bool)
    ensures res == HasRight(profile, appProfileId)
  {
    res := false;
    if profile.Some? {
      var appProfiles := profile.value;
      var i := 0;
      while i < |appProfiles| && !res
        invariant 0 <= i <= |appProfiles|
        invariant res <==> exists j :: 0 <= j < i && Grants(appProfiles[j], appProfileId)
      {
        ShiftAndTestIsBitTest(appProfiles[i], appProfileId);
        res := ShiftAndTest(appProfiles[i], appProfileId);
        i := i + 1;
      }
    }
  }

  /** The default id 1 admits exactly the users whose profile lists bit 0 (modulo 32). */
  lemma AdminDefaultRight(profile: Option<seq<int>>)
    ensures HasRight(profile, 1) <==>
              profile.Some? && exists i :: 0 <= i < |profile.value| && ShiftCount(profile.value[i]) == 0
  {
    if profile.Some? {
      forall i | 0 <= i < |profile.value|
        ensures Grants(profile.value[i], 1) <==> ShiftCount(profile.value[i]) == 0
      {
        AdminMaskGrants(profile.value[i]);
      }
    }
  }
}
