/**
 * Startup key grabbing: every keycode of the table is grabbed on the root
 * window once for every combination of the modifier bits, because the X
 * server matches grabs against the exact modifier state. The first grab the
 * server refuses ends startup with status 1.
 */
module KeyGrab {
  import opened Xcb
  import opened Bindings

  /** One exclusive key grab request: a keycode under an exact modifier mask. */
  datatype Grab = Grab(key: Keycode, modifiers: ModMask)

  /** `1 << |mods|`: the number of subsets of the modifier bits. */
  const SubsetCount: nat := 8

  /** Every modifier bit of the table at once. */
  const AllMods: ModMask := ModMaskShift | ModMaskLock | ModMask2

  /** `modc & (1 << modi)`: subset number `modc` contains modifier `modi`. */
  predicate Chosen(modc: nat, modi: nat)
    requires modc < SubsetCount && modi < |Mods|
  {
    (modc as bv8) & ((1 as bv8) << modi) != 0
  }

  /** The mask after OR-ing the chosen ones among the first `n` modifiers. */
  function PartialMask(modc: nat, n: nat): ModMask
    requires modc < SubsetCount && n <= |Mods|
  {
    if n == 0 then 0
    else PartialMask(modc, n - 1) | (if Chosen(modc, n - 1) then Mods[n - 1] else 0)
  }

  /** The modifier mask grabbed for subset number `modc`. */
  function SubsetMask(modc: nat): ModMask
    requires modc < SubsetCount
  {
    PartialMask(modc, |Mods|)
  }

  /**
   * An independent reading of subset number `modc`: bit 0 of the number
   * selects SHIFT, bit 1 LOCK and bit 2 MOD_2.
   */
  lemma SubsetMaskValue(modc: nat)
    requires modc < SubsetCount
    ensures SubsetMask(modc) ==
      (if modc % 2 == 1 then ModMaskShift else 0) |
      (if modc / 2 % 2 == 1 then ModMaskLock else 0) |
      (if modc / 4 == 1 then ModMask2 else 0)
  {
    assert PartialMask(modc, 1) == if Chosen(modc, 0) then ModMaskShift else 0;
    assert PartialMask(modc, 2) == PartialMask(modc, 1) | if Chosen(modc, 1) then ModMaskLock else 0;
    assert SubsetMask(modc) ==
      (if Chosen(modc, 0) then ModMaskShift else 0) |
      (if Chosen(modc, 1) then ModMaskLock else 0) |
      (if Chosen(modc, 2) then ModMask2 else 0);
    if modc == 0 {
    } else if modc == 1 {
    } else if modc == 2 {
    } else if modc == 3 {
    } else if modc == 4 {
    } else if modc == 5 {
    } else if modc == 6 {
    } else {
      assert modc == 7;
    }
  }

  /**
   * Subset number `modc` turns into the mask that holds exactly the modifier
   * bits it chooses and no other bit; subset 0 is the empty mask.
   */
  lemma SubsetMaskBits(modc: nat)
    requires modc < SubsetCount
    ensures forall modi :: 0 <= modi < |Mods| ==>
      (SubsetMask(modc) & Mods[modi] != 0 <==> Chosen(modc, modi))
    ensures SubsetMask(modc) & !AllMods == 0
    ensures modc == 0 ==> SubsetMask(modc) == 0
  {
    SubsetMaskValue(modc);
  }

  /** Different subset numbers give different masks. */
  lemma SubsetMasksDistinct(c1: nat, c2: nat)
    requires c1 < SubsetCount && c2 < SubsetCount && c1 != c2
    ensures SubsetMask(c1) != SubsetMask(c2)
  {
    SubsetMaskValue(c1);
    SubsetMaskValue(c2);
  }

  /**
   * The eight masks are exactly the ORs of all subsets of {SHIFT, LOCK,
   * MOD_2}: a mask is one of them if and only if it has no other bit.
   */
  lemma SubsetMasksCoverModCombinations(m: ModMask)
    ensures (m & !AllMods == 0) <==> exists c :: 0 <= c < SubsetCount && SubsetMask(c) == m
  {
    if m & !AllMods == 0 {
      var c: nat := (if m & ModMaskShift != 0 then 1 else 0)
                  + (if m & ModMaskLock != 0 then 2 else 0)
                  + (if m & ModMask2 != 0 then 4 else 0);
      SubsetMaskValue(c);
    } else {
      forall c | 0 <= c < SubsetCount ensures SubsetMask(c) != m {
        SubsetMaskValue(c);
      }
    }
  }

  /** The eight grabs of one keycode, in subset order. */
  function GrabsFor(key: Keycode): seq<Grab> {
    seq(SubsetCount, modc requires 0 <= modc < SubsetCount => Grab(key, SubsetMask(modc)))
  }

  /** Every grab the loop issues when all succeed, keycode by keycode. */
  function AllGrabs(): seq<Grab> {
    GrabsFor(Keys[0]) + GrabsFor(Keys[1]) + GrabsFor(Keys[2])
  }

  /** Grab number `keyi * 8 + modc` of the plan is keycode `keyi` under subset `modc`. */
  lemma AllGrabsAt(keyi: nat, modc: nat)
    requires keyi < |Keys| && modc < SubsetCount
    ensures |AllGrabs()| == |Keys| * SubsetCount
    ensures AllGrabs()[keyi * SubsetCount + modc] == Grab(Keys[keyi], SubsetMask(modc))
  {
  }

  /**
   * The full run is 3 x 2^3 = 24 grabs, keycode-major: grab i is keycode
   * i / 8 under subset mask i % 8.
   */
  lemma AllGrabsLayout()
    ensures |AllGrabs()| == |Keys| * SubsetCount == 24
    ensures forall i :: 0 <= i < |AllGrabs()| ==>
      AllGrabs()[i] == Grab(Keys[i / SubsetCount], SubsetMask(i % SubsetCount))
  {
  }

  /** Each (keycode, modifier combination) pair is grabbed exactly once. */
  lemma AllGrabsOncePerPair(key: Keycode, m: ModMask)
    ensures (key in Keys && m & !AllMods == 0) <==> Grab(key, m) in AllGrabs()
    ensures forall i, j :: 0 <= i < j < |AllGrabs()| ==> AllGrabs()[i] != AllGrabs()[j]
  {
    AllGrabsLayout();
    SubsetMasksCoverModCombinations(m);
    if key in Keys && m & !AllMods == 0 {
      var c :| 0 <= c < SubsetCount && SubsetMask(c) == m;
      var k :| 0 <= k < |Keys| && Keys[k] == key;
      assert AllGrabs()[k * SubsetCount + c] == Grab(key, m);
    }
    if Grab(key, m) in AllGrabs() {
      var i :| 0 <= i < |AllGrabs()| && AllGrabs()[i] == Grab(key, m);
      SubsetMaskBits(i % SubsetCount);
    }
    forall i, j | 0 <= i < j < |AllGrabs()| ensures AllGrabs()[i] != AllGrabs()[j] {
      if i / SubsetCount == j / SubsetCount {
        SubsetMasksDistinct(i % SubsetCount, j % SubsetCount);
      }
    }
  }

  /**
   * The grabs actually sent when `fails` says which ones the server refuses:
   * the requests in order, up to and including the first refused one.
   */
  function Attempt(gs: seq<Grab>, fails: Grab -> bool): seq<Grab> {
    if gs == [] then []
    else if fails(gs[0]) then [gs[0]]
    else [gs[0]] + Attempt(gs[1..], fails)
  }

  /**
   * What was sent is a prefix of the plan; every grab but the last one
   * succeeded; the last one failed exactly when some grab of the plan fails;
   * and when none fails, the whole plan was sent.
   */
  lemma {:induction false} AttemptStopsAtFirstFailure(gs: seq<Grab>, fails: Grab -> bool)
    ensures Attempt(gs, fails) <= gs
    ensures forall i :: 0 <= i < |Attempt(gs, fails)| - 1 ==> !fails(Attempt(gs, fails)[i])
    ensures (exists i :: 0 <= i < |gs| && fails(gs[i])) <==>
      (Attempt(gs, fails) != [] && fails(Attempt(gs, fails)[|Attempt(gs, fails)| - 1]))
    ensures (forall i :: 0 <= i < |gs| ==> !fails(gs[i])) ==> Attempt(gs, fails) == gs
  {
    if gs != [] && !fails(gs[0]) {
      AttemptStopsAtFirstFailure(gs[1..], fails);
      var rest := Attempt(gs[1..], fails);
      assert Attempt(gs, fails) == [gs[0]] + rest;
      if exists i :: 0 <= i < |gs| && fails(gs[i]) {
        var i :| 0 <= i < |gs| && fails(gs[i]);
        assert fails(gs[1..][i - 1]);
      }
      if exists i :: 0 <= i < |gs[1..]| && fails(gs[1..][i]) {
        var i :| 0 <= i < |gs[1..]| && fails(gs[1..][i]);
        assert fails(gs[i + 1]);
      }
    }
  }

  /** A run whose sent grabs all succeeded and then one fails stops right there. */
  lemma {:induction false} AttemptAfterSuccesses(done: seq<Grab>, g: Grab, rest: seq<Grab>, fails: Grab -> bool)
    requires forall i :: 0 <= i < |done| ==> !fails(done[i])
    requires fails(g)
    ensures Attempt(done + [g] + rest, fails) == done + [g]
  {
    if done != [] {
      assert (done + [g] + rest)[1..] == done[1..] + [g] + rest;
      AttemptAfterSuccesses(done[1..], g, rest, fails);
    }
  }

  /**
   * The innermost loop of startup: OR together the modifier bits that subset
   * number `modc` chooses.
   */
  method BuildMask(modc: nat) returns (mask: ModMask)
    requires modc < SubsetCount
    ensures mask == SubsetMask(modc)
    ensures forall modi :: 0 <= modi < |Mods| ==> (mask & Mods[modi] != 0 <==> Chosen(modc, modi))
  {
    mask := 0;
    for modi := 0 to |Mods|
      invariant mask == PartialMask(modc, modi)
    {
      if (modc as bv8) & ((1 as bv8) << modi) != 0 {
        mask := mask | Mods[modi];
      }
    }
    SubsetMaskBits(modc);
  }

  /**
   * The nested loop of startup: for each keycode, for each subset number,
   * build the mask, then send the checked grab. `fails` answers whether the
   * server refused a grab. Returns 1 at the first refusal (`main` then exits
   * with 1), 0 when all 24 grabs are in place (startup continues with the
   * main loop), and the grabs sent.
   */
  method GrabKeys(fails: Grab -> bool) returns (status: int, issued: seq<Grab>)
    ensures issued == Attempt(AllGrabs(), fails)
    ensures status == 0 || status == 1
    ensures status == 1 <==> exists i :: 0 <= i < |AllGrabs()| && fails(AllGrabs()[i])
  {
    status, issued := 0, [];
    ghost var all := AllGrabs();
    AllGrabsAt(0, 0);
    for keyi := 0 to |Keys|
      invariant |all| == |Keys| * SubsetCount
      invariant issued == all[..keyi * SubsetCount]
      invariant forall i :: 0 <= i < |issued| ==> !fails(issued[i])
    {
      for modc := 0 to SubsetCount
        invariant issued == all[..keyi * SubsetCount + modc]
        invariant forall i :: 0 <= i < |issued| ==> !fails(issued[i])
      {
        var mask := BuildMask(modc);
        var g := Grab(Keys[keyi], mask);
        ghost var n := keyi * SubsetCount + modc;
        AllGrabsAt(keyi, modc);
        assert all[..n + 1] == issued + [g];
        if fails(g) {
          AttemptAfterSuccesses(issued, g, all[n + 1..], fails);
          assert all == issued + [g] + all[n + 1..];
          issued := issued + [g];
          status := 1;
          return;
        }
        issued := issued + [g];
      }
    }
    assert issued == all;
    AttemptStopsAtFirstFailure(all, fails);
  }

  /**
   * The startup scenario where the volume-up key under SHIFT+LOCK is already
   * grabbed by another client: startup fails, and no grab after that one is
   * sent, so none at all for a later keycode or a later subset.
   */
  lemma VolUpShiftLockConflict(fails: Grab -> bool)
    requires fails(Grab(KeycodeVolUp, ModMaskShift | ModMaskLock))
    ensures exists i :: 0 <= i < |AllGrabs()| && fails(AllGrabs()[i])
    ensures |Attempt(AllGrabs(), fails)| <= 2 * SubsetCount + 4
    ensures forall g :: g in Attempt(AllGrabs(), fails) ==> g in AllGrabs()[..2 * SubsetCount + 4]
  {
    AllGrabsLayout();
    SubsetMaskBits(3);
    var at := 2 * SubsetCount + 3;
    assert AllGrabs()[at] == Grab(KeycodeVolUp, ModMaskShift | ModMaskLock);
    AttemptPrefixBound(AllGrabs(), fails, at);
  }

  /** When grab `at` of the plan fails, nothing past it is sent. */
  lemma {:induction false} AttemptPrefixBound(gs: seq<Grab>, fails: Grab -> bool, at: nat)
    requires at < |gs| && fails(gs[at])
    ensures |Attempt(gs, fails)| <= at + 1
    ensures Attempt(gs, fails) <= gs[..at + 1]
  {
    if !fails(gs[0]) {
      AttemptPrefixBound(gs[1..], fails, at - 1);
      assert gs[..at + 1] == [gs[0]] + gs[1..][..at];
    }
  }
}
