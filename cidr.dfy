/**
 * check_cidr_overlap (cli/utils.py) over already-parsed IPv4 networks.  A
 * network is a 32-bit address and a prefix length with no host bits set, as
 * IPv4Network(..., strict=True) accepts; its block is the 2^(32 - prefix)
 * addresses starting at its address (CIDR prefix notation, section 3.1 of
 * RFC 4632).
 */
module Cidr {
  import opened Wrappers

  function Pow2(n: nat): (r: nat)
    ensures r >= 1
  {
    if n == 0 then 1 else 2 * Pow2(n - 1)
  }

  lemma {:induction false} Pow2Add(m: nat, n: nat)
    ensures Pow2(m + n) == Pow2(m) * Pow2(n)
  {
    if m > 0 {
      Pow2Add(m - 1, n);
    }
  }

  datatype Network = Network(address: nat, prefix: nat)

  function BlockSize(n: Network): nat
    requires n.prefix <= 32
  {
    Pow2(32 - n.prefix)
  }

  /** What IPv4Network(text, strict=True) accepts. */
  predicate IsNetwork(n: Network)
  {
    n.prefix <= 32 && n.address < 0x1_0000_0000 && n.address % BlockSize(n) == 0
  }

  type Net = n: Network | IsNetwork(n) witness Network(0, 0)

  /** The last address of the block (broadcast_address). */
  function Broadcast(n: Net): int
  {
    n.address + BlockSize(n) - 1
  }

  /** `x in n`. */
  predicate Contains(n: Net, x: int)
  {
    n.address <= x <= Broadcast(n)
  }

  /** IPv4Network.overlaps: one network holds an end address of the other. */
  predicate Overlaps(a: Net, b: Net)
  {
    Contains(a, b.address) || Contains(a, Broadcast(b)) || Contains(b, a.address) || Contains(b, Broadcast(a))
  }

  /** Two networks overlap exactly when their address blocks intersect. */
  lemma OverlapsIffShareAddress(a: Net, b: Net)
    ensures Overlaps(a, b) <==> exists x :: Contains(a, x) && Contains(b, x)
  {
    if exists x :: Contains(a, x) && Contains(b, x) {
      var x :| Contains(a, x) && Contains(b, x);
      if a.address <= b.address {
        assert Contains(a, b.address);
      } else {
        assert Contains(b, a.address);
      }
    }
  }

  lemma OverlapsSymmetric(a: Net, b: Net)
    ensures Overlaps(a, b) == Overlaps(b, a)
  {
  }

  lemma MulMonotone(m: nat, n: nat, s: nat)
    requires m <= n
    ensures m * s <= n * s
  {
  }

  lemma MulCancelLess(m: nat, n: nat, s: nat)
    requires s > 0 && m * s < n * s
    ensures m < n
  {
    if m >= n {
      MulMonotone(n, m, s);
    }
  }

  /** A multiple of s*q is a multiple of s, with q times the factor. */
  lemma MultipleOfProduct(x: nat, s: nat, q: nat)
    requires s > 0 && q > 0 && x % (s * q) == 0
    ensures x == (x / (s * q) * q) * s
  {
    var k := x / (s * q);
    assert x == k * (s * q);
    assert k * (s * q) == (k * q) * s;
  }

  lemma Distribute(m: nat, n: nat, s: nat)
    ensures (m + n) * s == m * s + n * s
  {
  }

  /** Two aligned intervals [A*s, (A+q)*s) and [k*s, (k+1)*s) that share x are nested. */
  lemma NestedMultiples(big: nat, q: nat, k: nat, s: nat, x: int)
    requires s > 0
    requires big * s <= x < (big + q) * s
    requires k * s <= x < (k + 1) * s
    ensures big <= k && k + 1 <= big + q
  {
    MulCancelLess(k, big + q, s);
    MulCancelLess(big, k + 1, s);
  }

  /** The arithmetic core of nesting: aligned blocks of sizes s*q and s that share an address. */
  lemma AlignedBlocksNest(aa: nat, ba: nat, s: nat, q: nat, x: int)
    requires s > 0 && q > 0 && aa % (s * q) == 0 && ba % s == 0
    requires aa <= x < aa + s * q && ba <= x < ba + s
    ensures aa <= ba && ba + s <= aa + s * q
  {
    MultipleOfProduct(ba, s, 1);
    MultipleOfProduct(aa, s, q);
    var kb := ba / s;
    var big := aa / (s * q) * q;
    assert ba == kb * s;
    assert aa == big * s;
    Distribute(big, q, s);
    Distribute(kb, 1, s);
    NestedMultiples(big, q, kb, s, x);
    MulMonotone(big, kb, s);
    MulMonotone(kb + 1, big + q, s);
  }

  /**
   * CIDR blocks never partly overlap: when two overlap, the one with the
   * shorter prefix contains the whole of the other.
   */
  lemma OverlappingBlocksNest(a: Net, b: Net)
    requires a.prefix <= b.prefix && Overlaps(a, b)
    ensures a.address <= b.address && Broadcast(b) <= Broadcast(a)
  {
    OverlapsIffShareAddress(a, b);
    var x :| Contains(a, x) && Contains(b, x);
    BlockSizeSplit(a, b);
    AlignedBlocksNest(a.address, b.address, BlockSize(b), Pow2(b.prefix - a.prefix), x);
  }

  /** A block with a prefix d bits shorter is 2^d blocks of the longer prefix. */
  lemma BlockSizeSplit(a: Net, b: Net)
    requires a.prefix <= b.prefix
    ensures BlockSize(a) == BlockSize(b) * Pow2(b.prefix - a.prefix)
  {
    Pow2Add(32 - b.prefix, b.prefix - a.prefix);
    assert 32 - a.prefix == (32 - b.prefix) + (b.prefix - a.prefix);
  }

  // ----- the scan over the environments directory -----

  /** A CIDR string found in a variables.tf, and what strict parsing made of it. */
  datatype Match = Match(text: string, parsed: Option<Net>)

  /** One entry of the environments directory, with the CIDRs its variables.tf mentions. */
  datatype EnvDir = EnvDir(name: string, isDir: bool, hasVariablesTf: bool, matches: seq<Match>)

  datatype CidrError =
    | InvalidNewCidr
    | InvalidCidr(text: string, env: string)
    | CidrOverlap(text: string, env: string)

  /** The entries whose CIDRs are compared: other environments' directories with a variables.tf. */
  predicate Scanned(d: EnvDir, currentEnv: string)
  {
    d.isDir && d.name != currentEnv && d.hasVariablesTf
  }

  /** A match makes the check fail when it does not parse or when it overlaps the new network. */
  predicate Conflicts(newNet: Net, m: Match)
  {
    m.parsed.None? || Overlaps(newNet, m.parsed.value)
  }

  datatype Conflict = Conflict(env: string, found: Match)

  function FirstConflictIn(newNet: Net, ms: seq<Match>): (r: Option<Match>)
    ensures r.None? <==> forall j :: 0 <= j < |ms| ==> !Conflicts(newNet, ms[j])
    ensures r.Some? ==> r.value in ms && Conflicts(newNet, r.value)
    ensures r.Some? ==> exists j :: 0 <= j < |ms| && ms[j] == r.value && NoConflictBefore(newNet, ms, j)
  {
    if ms == [] then None
    else if Conflicts(newNet, ms[0]) then Some(ms[0])
    else FirstConflictIn(newNet, ms[1..])
  }

  /** None of the first n matches conflicts. */
  predicate NoConflictBefore(newNet: Net, ms: seq<Match>, n: int)
  {
    forall k :: 0 <= k < n && k < |ms| ==> !Conflicts(newNet, ms[k])
  }

  /** None of the scanned entries among the first n directory entries holds a conflicting match. */
  predicate NoScannedConflictBefore(newNet: Net, currentEnv: string, dirs: seq<EnvDir>, n: int)
  {
    forall k :: 0 <= k < n && k < |dirs| && Scanned(dirs[k], currentEnv) ==>
      NoConflictBefore(newNet, dirs[k].matches, |dirs[k].matches|)
  }

  /** The first conflicting match, in directory order and then in file order. */
  function FirstConflict(newNet: Net, currentEnv: string, dirs: seq<EnvDir>): (r: Option<Conflict>)
    ensures r.None? <==>
              forall i, j :: 0 <= i < |dirs| && 0 <= j < |dirs[i].matches| && Scanned(dirs[i], currentEnv) ==>
                !Conflicts(newNet, dirs[i].matches[j])
    ensures r.Some? ==>
              exists i :: 0 <= i < |dirs| && Scanned(dirs[i], currentEnv) && dirs[i].name == r.value.env
                && r.value.found in dirs[i].matches && Conflicts(newNet, r.value.found)
  {
    if dirs == [] then None
    else
      var here := if Scanned(dirs[0], currentEnv) then FirstConflictIn(newNet, dirs[0].matches) else None;
      if here.Some? then Some(Conflict(dirs[0].name, here.value))
      else
        var rest := FirstConflict(newNet, currentEnv, dirs[1..]);
        assert forall i :: 1 <= i < |dirs| ==> dirs[1..][i - 1] == dirs[i];
        rest
  }

  /**
   * The conflict reported is the one the loops reach first: no scanned entry
   * before its entry holds a conflicting match, and no match before it in its
   * entry conflicts.
   */
  lemma {:induction false} FirstConflictIsFirst(newNet: Net, currentEnv: string, dirs: seq<EnvDir>)
    ensures var r := FirstConflict(newNet, currentEnv, dirs);
            r.Some? ==>
              exists i, j :: 0 <= i < |dirs| && 0 <= j < |dirs[i].matches|
                && Scanned(dirs[i], currentEnv) && dirs[i].name == r.value.env && dirs[i].matches[j] == r.value.found
                && NoScannedConflictBefore(newNet, currentEnv, dirs, i) && NoConflictBefore(newNet, dirs[i].matches, j)
  {
    if dirs != [] {
      var here := if Scanned(dirs[0], currentEnv) then FirstConflictIn(newNet, dirs[0].matches) else None;
      if here.Some? {
        var j :| 0 <= j < |dirs[0].matches| && dirs[0].matches[j] == here.value
                 && NoConflictBefore(newNet, dirs[0].matches, j);
        assert NoScannedConflictBefore(newNet, currentEnv, dirs, 0);
        assert FirstConflict(newNet, currentEnv, dirs) == Some(Conflict(dirs[0].name, here.value));
        assert Scanned(dirs[0], currentEnv) && dirs[0].name == FirstConflict(newNet, currentEnv, dirs).value.env;
      } else {
        var rest := FirstConflict(newNet, currentEnv, dirs[1..]);
        FirstConflictIsFirst(newNet, currentEnv, dirs[1..]);
        if rest.Some? {
          var tail := dirs[1..];
          var i, j :| 0 <= i < |tail| && 0 <= j < |tail[i].matches|
                      && Scanned(tail[i], currentEnv) && tail[i].name == rest.value.env && tail[i].matches[j] == rest.value.found
                      && NoScannedConflictBefore(newNet, currentEnv, tail, i) && NoConflictBefore(newNet, tail[i].matches, j);
          assert tail[i] == dirs[i + 1];
          NoScannedConflictShift(newNet, currentEnv, dirs, i);
          assert FirstConflict(newNet, currentEnv, dirs) == rest;
        }
      }
    }
  }

  /**
   * A first entry without conflicts, followed by a tail with none before its
   * i-th entry, has none before its (i + 1)-th entry.
   */
  lemma NoScannedConflictShift(newNet: Net, currentEnv: string, dirs: seq<EnvDir>, i: nat)
    requires |dirs| > 0 && i < |dirs| - 1
    requires Scanned(dirs[0], currentEnv) ==> NoConflictBefore(newNet, dirs[0].matches, |dirs[0].matches|)
    requires NoScannedConflictBefore(newNet, currentEnv, dirs[1..], i)
    ensures NoScannedConflictBefore(newNet, currentEnv, dirs, i + 1)
  {
    forall k | 0 <= k < i + 1 && k < |dirs| && Scanned(dirs[k], currentEnv)
      ensures NoConflictBefore(newNet, dirs[k].matches, |dirs[k].matches|)
    {
      if k > 0 {
        assert dirs[k] == dirs[1..][k - 1];
      }
    }
  }

  /** check_cidr_overlap as written: an overlap is reported as an invalid CIDR. */
  function AsWrittenVerdict(newCidr: Option<Net>, currentEnv: string, dirs: seq<EnvDir>): Outcome<CidrError>
  {
    if newCidr.None? then Fail(InvalidNewCidr)
    else
      match FirstConflict(newCidr.value, currentEnv, dirs)
      case None => Pass
      case Some(c) => Fail(InvalidCidr(c.found.text, c.env))
  }

  /**
   * check_cidr_overlap: nested loops over the directory entries and their
   * matches, stopping at the first match that does not parse or overlaps.
   */
  method CheckCidrOverlap(newCidr: Option<Net>, currentEnv: string, environments: seq<EnvDir>)
    returns (r: Outcome<CidrError>)
    ensures r == AsWrittenVerdict(newCidr, currentEnv, environments)
  {
    if newCidr.None? {
      return Fail(InvalidNewCidr);
    }
    var newNetwork := newCidr.value;
    var i := 0;
    while i < |environments|
      invariant 0 <= i <= |environments|
      invariant FirstConflict(newNetwork, currentEnv, environments)
                == FirstConflict(newNetwork, currentEnv, environments[i..])
    {
      var envDir := environments[i];
      assert environments[i..][1..] == environments[i + 1..];
      if envDir.isDir && envDir.name != currentEnv && envDir.hasVariablesTf {
        var j := 0;
        while j < |envDir.matches|
          invariant 0 <= j <= |envDir.matches|
          invariant FirstConflictIn(newNetwork, envDir.matches)
                    == FirstConflictIn(newNetwork, envDir.matches[j..])
        {
          var m := envDir.matches[j];
          assert envDir.matches[j..][1..] == envDir.matches[j + 1..];
          // a parse failure and an overlap both end in the same `except Exception`
          if m.parsed.None? || Overlaps(newNetwork, m.parsed.value) {
            return Fail(InvalidCidr(m.text, envDir.name));
          }
          j := j + 1;
        }
      }
      i := i + 1;
    }
    r := Pass;
  }

  /**
   * The check fails exactly when the new CIDR does not parse or some other
   * environment's directory with a variables.tf lists a CIDR that does not parse
   * or overlaps it; the current environment's own entries never count, and
   * every failure after parsing carries the "Invalid CIDR" error.
   */
  lemma AsWrittenFailsIff(newCidr: Option<Net>, currentEnv: string, dirs: seq<EnvDir>)
    ensures AsWrittenVerdict(newCidr, currentEnv, dirs).Fail? <==>
              newCidr.None? ||
              exists i, j :: 0 <= i < |dirs| && 0 <= j < |dirs[i].matches| && Scanned(dirs[i], currentEnv)
                && Conflicts(newCidr.value, dirs[i].matches[j])
    ensures newCidr.Some? && AsWrittenVerdict(newCidr, currentEnv, dirs).Fail? ==>
              AsWrittenVerdict(newCidr, currentEnv, dirs).error.InvalidCidr?
              && AsWrittenVerdict(newCidr, currentEnv, dirs).error.env != currentEnv
  {
    if newCidr.Some? {
      var c := FirstConflict(newCidr.value, currentEnv, dirs);
      if c.Some? {
        var i :| 0 <= i < |dirs| && Scanned(dirs[i], currentEnv) && dirs[i].name == c.value.env;
      }
    }
  }

  /**
   * As written, the overlap error is raised inside the `try` whose
   * `except Exception` turns it into "Invalid CIDR": a well-formed CIDR of
   * another environment that overlaps the new one is reported as invalid.
   */
  lemma AsWrittenMislabelsOverlap(newNet: Net, existing: Net, text: string, env: string, currentEnv: string)
    requires env != currentEnv && Overlaps(newNet, existing)
    ensures AsWrittenVerdict(Some(newNet), currentEnv, [EnvDir(env, true, true, [Match(text, Some(existing))])])
            == Fail(InvalidCidr(text, env))
  {
  }

  /**
   * The evidently intended verdict: the same pass/fail decision, but "Invalid
   * CIDR" only for a CIDR that does not parse, and an overlap error for a
   * well-formed CIDR that overlaps.
   */
  function IntendedVerdict(newCidr: Option<Net>, currentEnv: string, dirs: seq<EnvDir>): (r: Outcome<CidrError>)
    ensures r.Fail? == AsWrittenVerdict(newCidr, currentEnv, dirs).Fail?
    ensures r.Fail? && r.error.InvalidCidr? ==>
              exists i :: 0 <= i < |dirs| && Scanned(dirs[i], currentEnv) && dirs[i].name == r.error.env
                && Match(r.error.text, None) in dirs[i].matches
    ensures r.Fail? && r.error.CidrOverlap? && newCidr.Some? ==>
              exists i, m :: 0 <= i < |dirs| && Scanned(dirs[i], currentEnv) && dirs[i].name == r.error.env
                && m in dirs[i].matches && m.text == r.error.text && m.parsed.Some?
                && Overlaps(newCidr.value, m.parsed.value)
    ensures newCidr.None? ==> r == Fail(InvalidNewCidr)
    ensures newCidr.Some? && r.Fail? ==>
              && !r.error.InvalidNewCidr?
              && FirstConflict(newCidr.value, currentEnv, dirs).Some?
              && (r.error.CidrOverlap? <==> FirstConflict(newCidr.value, currentEnv, dirs).value.found.parsed.Some?)
  {
    if newCidr.None? then Fail(InvalidNewCidr)
    else
      match FirstConflict(newCidr.value, currentEnv, dirs)
      case None => Pass
      case Some(c) =>
        if c.found.parsed.None? then Fail(InvalidCidr(c.found.text, c.env))
        else Fail(CidrOverlap(c.found.text, c.env))
  }

  /**
   * With the intended verdict, a well-formed CIDR of another environment that
   * overlaps the new one is reported as an overlap.
   */
  lemma IntendedReportsOverlap(newNet: Net, existing: Net, text: string, env: string, currentEnv: string)
    requires env != currentEnv && Overlaps(newNet, existing)
    ensures IntendedVerdict(Some(newNet), currentEnv, [EnvDir(env, true, true, [Match(text, Some(existing))])])
            == Fail(CidrOverlap(text, env))
  {
  }
}
