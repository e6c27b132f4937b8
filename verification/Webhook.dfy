/** The validating admission webhook: `verify`, `verifyChanges`, `usedFloatingIPs` and `checkStatusCodeRange`. */
module Webhook {
  import opened Api
  import Orders

  /** `net.ParseIP` and the address part of `net.ParseCIDR`, left open. */
  datatype Parsers = Parsers(ip: string -> bool, cidr: string -> bool)

  /** `net.ParseCIDR` rejects a string without a slash whatever else it holds. */
  predicate ParseCIDR(p: Parsers, s: string) {
    '/' in s && p.cidr(s)
  }

  datatype FieldError =
    | VipAddress(i: int)
    | FipListFailed
    | FipInvalid(i: int)
    | FipTaken(i: int, holder: NamespacedName)
    | CodeInvalid(i: int, j: int)
    | RangeNotAlone(i: int, j: int)
    | CidrInvalid(i: int, j: int)
    | UuidChanged
    | ZoneChanged
    | VipsChanged

  // ---------------------------------------------------------------- status codes

  predicate IsDigit(c: char) {
    '0' <= c <= '9'
  }

  /** `[1-5]\d\d` */
  predicate ThreeDigits(s: string) {
    |s| == 3 && '1' <= s[0] <= '5' && IsDigit(s[1]) && IsDigit(s[2])
  }

  /** `checkStatusCodeRange`: the expression `^([1-5]\d\d)(?:-[1-5]\d\d)?$`, then a search for a dash. */
  function CheckStatusCodeRange(code: string): (r: (bool, bool)) {
    var matches := ThreeDigits(code) || (|code| == 7 && ThreeDigits(code[..3]) && code[3] == '-' &&
                                           ThreeDigits(code[4..]));
    if matches then (true, '-' in code) else (false, false)
  }

  /** The decimal notation of a status code of section 15 of RFC 9110. */
  function CodeText(n: int): (s: string)
    requires 100 <= n <= 599
    ensures |s| == 3 && '-' !in s
  {
    [DigitOf(n / 100), DigitOf(n / 10 % 10), DigitOf(n % 10)]
  }

  ghost predicate IsCode(s: string) {
    exists n | 100 <= n <= 599 :: s == CodeText(n)
  }

  ghost predicate IsRange(s: string) {
    exists lo, hi | 100 <= lo <= 599 && 100 <= hi <= 599 :: s == CodeText(lo) + "-" + CodeText(hi)
  }

  function Value(c: char): int
    requires IsDigit(c)
  {
    c as int - '0' as int
  }

  lemma DigitValue(c: char)
    requires IsDigit(c)
    ensures 0 <= Value(c) <= 9 && DigitOf(Value(c)) == c
  {
  }

  lemma Places(a: int, b: int, c: int)
    requires 1 <= a <= 5 && 0 <= b <= 9 && 0 <= c <= 9
    ensures var n := 100 * a + 10 * b + c; 100 <= n <= 599 && n / 100 == a && n / 10 % 10 == b && n % 10 == c
  {
    var n := 100 * a + 10 * b + c;
    assert n / 10 == 10 * a + b;
  }

  lemma CodeTextDigits(n: int)
    requires 100 <= n <= 599
    ensures ThreeDigits(CodeText(n))
  {
    assert 1 <= n / 100 <= 5;
  }

  lemma ThreeDigitsExactly(s: string)
    ensures ThreeDigits(s) <==> IsCode(s)
  {
    if ThreeDigits(s) {
      var a, b, c := Value(s[0]), Value(s[1]), Value(s[2]);
      DigitValue(s[0]);
      DigitValue(s[1]);
      DigitValue(s[2]);
      assert 1 <= a <= 5;
      Places(a, b, c);
      hide Value, DigitOf;
      assert CodeText(100 * a + 10 * b + c) == [DigitOf(a), DigitOf(b), DigitOf(c)];
      assert s == [s[0], s[1], s[2]];
    }
    if IsCode(s) {
      var n :| 100 <= n <= 599 && s == CodeText(n);
      CodeTextDigits(n);
    }
  }

  /** A code is valid exactly when it is the decimal notation of a 1xx-5xx status code or two of them
      joined by a dash, and it is flagged as a range exactly in the second case. */
  lemma StatusCodeExactly(s: string)
    ensures CheckStatusCodeRange(s).0 <==> IsCode(s) || IsRange(s)
    ensures CheckStatusCodeRange(s).1 <==> IsRange(s)
  {
    ThreeDigitsExactly(s);
    if |s| == 7 && s[3] == '-' {
      ThreeDigitsExactly(s[..3]);
      ThreeDigitsExactly(s[4..]);
      assert s == s[..3] + "-" + s[4..];
    }
    if IsRange(s) {
      var lo, hi :| 100 <= lo <= 599 && 100 <= hi <= 599 && s == CodeText(lo) + "-" + CodeText(hi);
      assert s[..3] == CodeText(lo) && s[3] == '-' && s[4..] == CodeText(hi);
      ThreeDigitsExactly(s[..3]);
      ThreeDigitsExactly(s[4..]);
    }
  }

  /** What the documentation promises: a list of status codes, or a single range. */
  ghost predicate CodesAccepted(codes: seq<string>) {
    && (forall j :: 0 <= j < |codes| ==> IsCode(codes[j]) || IsRange(codes[j]))
    && (forall j :: 0 <= j < |codes| && IsRange(codes[j]) ==> |codes| == 1)
  }

  /** The first `n` codes hold no range among several codes, so the loop has not left early. */
  ghost predicate NoBreak(codes: seq<string>, n: int) {
    forall j :: 0 <= j < n && j < |codes| && CheckStatusCodeRange(codes[j]).1 ==> |codes| == 1
  }

  /** Lines 110-119: the loop over the status codes of pool `i`, which stops at the first range that is not alone. */
  method VerifyCodes(i: int, codes: seq<string>) returns (errs: seq<FieldError>)
    ensures errs == [] <==> CodesAccepted(codes)
    ensures forall j :: CodeInvalid(i, j) in errs <==>
      0 <= j < |codes| && NoBreak(codes, j) && !CheckStatusCodeRange(codes[j]).0
    ensures forall j :: RangeNotAlone(i, j) in errs <==>
      0 <= j < |codes| && NoBreak(codes, j) && |codes| > 1 && CheckStatusCodeRange(codes[j]).1
    ensures forall e :: e in errs ==> (e.CodeInvalid? || e.RangeNotAlone?) && e.i == i
  {
    hide CheckStatusCodeRange, IsCode, IsRange;
    errs := [];
    var n := 0;
    while n < |codes|
      invariant 0 <= n <= |codes|
      invariant NoBreak(codes, n)
      invariant forall j :: CodeInvalid(i, j) in errs <==> 0 <= j < n && !CheckStatusCodeRange(codes[j]).0
      invariant forall e :: e in errs ==> e.CodeInvalid? && e.i == i
      invariant errs == [] <==> forall j :: 0 <= j < n ==> CheckStatusCodeRange(codes[j]).0
    {
      var (valid, isRange) := CheckStatusCodeRange(codes[n]);
      if !valid {
        errs := errs + [CodeInvalid(i, n)];
      }
      if isRange && |codes| > 1 {
        errs := errs + [RangeNotAlone(i, n)];
        StatusCodeExactly(codes[n]);
        return;
      }
      n := n + 1;
    }
    forall j | 0 <= j < |codes| ensures CheckStatusCodeRange(codes[j]).0 <==> IsCode(codes[j]) || IsRange(codes[j])
      ensures CheckStatusCodeRange(codes[j]).1 <==> IsRange(codes[j])
    {
      StatusCodeExactly(codes[j]);
    }
  }

  // ---------------------------------------------------------------- floating IPs in use

  /** The object that a non-empty CIDR is attributed to: the last of the list that claims it. */
  ghost function Owner(list: seq<LoadBalancer>, cidr: string): Option<NamespacedName> {
    if list == [] || cidr == "" then None
    else
      var last := list[|list| - 1];
      if cidr in last.spec.floatingIPs then Some(last.key) else Owner(list[..|list| - 1], cidr)
  }

  method UsedFloatingIPs(list: seq<LoadBalancer>) returns (used: map<string, NamespacedName>)
    ensures forall c :: c in used <==> Owner(list, c).Some?
    ensures forall c :: c in used ==> Owner(list, c) == Some(used[c])
  {
    used := map[];
    for n := 0 to |list|
      invariant forall c :: c in used <==> Owner(list[..n], c).Some?
      invariant forall c :: c in used ==> Owner(list[..n], c) == Some(used[c])
    {
      var fips := list[n].spec.floatingIPs;
      ghost var before := used;
      for i := 0 to |fips|
        invariant forall c :: c in used <==> c in before || (c != "" && c in fips[..i])
        invariant forall c :: c in used ==> used[c] == if c in fips[..i] then list[n].key else before[c]
      {
        assert fips[..i + 1] == fips[..i] + [fips[i]];
        if fips[i] != "" {
          used := used[fips[i] := list[n].key];
        }
      }
      assert fips[..|fips|] == fips;
      assert list[..n + 1][..n] == list[..n];
    }
    assert list[..|list|] == list;
  }

  // ---------------------------------------------------------------- verify

  ghost predicate VipsValid(p: Parsers, vips: seq<VirtualIP>) {
    forall i :: 0 <= i < |vips| ==> vips[i].address == "" || p.ip(vips[i].address)
  }

  ghost predicate FipsFree(p: Parsers, list: seq<LoadBalancer>, lb: LoadBalancer) {
    forall i :: 0 <= i < |lb.spec.floatingIPs| ==>
      var c := lb.spec.floatingIPs[i];
      ParseCIDR(p, c) && (Owner(list, c).Some? ==> Owner(list, c).value == lb.key)
  }

  ghost predicate PoolValid(p: Parsers, pool: Pool) {
    && CodesAccepted(pool.backend.health.http.statusCodes)
    && (forall j :: 0 <= j < |pool.frontend.allowedCIDRs| ==> ParseCIDR(p, pool.frontend.allowedCIDRs[j]))
  }

  ghost predicate PoolsValid(p: Parsers, pools: seq<Pool>) {
    forall i :: 0 <= i < |pools| ==> PoolValid(p, pools[i])
  }

  ghost predicate ChangeAllowed(before: Spec, after: Spec) {
    && (before.uuid != "" ==> after.uuid == before.uuid)
    && (before.zone != "" ==> after.zone == before.zone)
    && multiset(after.virtualIPs) == multiset(before.virtualIPs)
  }

  /** The writes the webhook lets through: `list` is what the API answered, `before` the stored object. */
  ghost predicate Admitted(p: Parsers, list: Option<seq<LoadBalancer>>, before: Option<LoadBalancer>,
                           lb: LoadBalancer) {
    && VipsValid(p, lb.spec.virtualIPs)
    && list.Some? && FipsFree(p, list.value, lb)
    && PoolsValid(p, lb.spec.pools)
    && (before.Some? ==> ChangeAllowed(before.value.spec, lb.spec))
  }

  function CompareVips(a: VirtualIP, b: VirtualIP): int {
    10 * Orders.Compare(a.subnetID, b.subnetID) + Orders.Compare(a.address, b.address)
  }

  function VipKey(v: VirtualIP): (string, string) {
    (v.subnetID, v.address)
  }

  lemma VipOrdering()
    ensures Orders.Ordering(CompareVips)
    ensures forall a, b :: CompareVips(a, b) == 0 ==> a == b
  {
    Orders.PairOrdering();
    assert forall a, b :: CompareVips(a, b) == Orders.ComparePair(VipKey(a), VipKey(b));
    assert forall a, b :: VipKey(a) == VipKey(b) ==> a == b;
    hide Orders.Compare, Orders.ComparePair, CompareVips, VipKey;
  }

  method VerifyChanges(before: LoadBalancer, after: LoadBalancer) returns (errs: seq<FieldError>)
    ensures errs == [] <==> ChangeAllowed(before.spec, after.spec)
    ensures UuidChanged in errs <==> before.spec.uuid != "" && after.spec.uuid != before.spec.uuid
    ensures ZoneChanged in errs <==> before.spec.zone != "" && after.spec.zone != before.spec.zone
    ensures VipsChanged in errs <==> multiset(after.spec.virtualIPs) != multiset(before.spec.virtualIPs)
    ensures forall e :: e in errs ==> e.UuidChanged? || e.ZoneChanged? || e.VipsChanged?
  {
    errs := [];
    if before.spec.uuid != "" && after.spec.uuid != before.spec.uuid {
      errs := errs + [UuidChanged];
    }
    if before.spec.zone != "" && after.spec.zone != before.spec.zone {
      errs := errs + [ZoneChanged];
    }
    VipOrdering();
    var same := Orders.SortedEqual(CompareVips, before.spec.virtualIPs, after.spec.virtualIPs);
    if !same {
      errs := errs + [VipsChanged];
    }
  }

  method VerifyVips(p: Parsers, vips: seq<VirtualIP>) returns (errs: seq<FieldError>)
    ensures errs == [] <==> VipsValid(p, vips)
    ensures forall e :: e in errs <==>
      e.VipAddress? && 0 <= e.i < |vips| && vips[e.i].address != "" && !p.ip(vips[e.i].address)
  {
    errs := [];
    for i := 0 to |vips|
      invariant errs == [] <==> VipsValid(p, vips[..i])
      invariant forall e :: e in errs <==>
        e.VipAddress? && 0 <= e.i < i && vips[e.i].address != "" && !p.ip(vips[e.i].address)
    {
      if vips[i].address != "" && !p.ip(vips[i].address) {
        errs := errs + [VipAddress(i)];
      }
    }
    assert vips[..|vips|] == vips;
  }

  ghost predicate Taken(list: seq<LoadBalancer>, lb: LoadBalancer, cidr: string, holder: NamespacedName) {
    Owner(list, cidr) == Some(holder) && holder != lb.key
  }

  method VerifyFips(p: Parsers, list: seq<LoadBalancer>, lb: LoadBalancer) returns (errs: seq<FieldError>)
    ensures errs == [] <==> FipsFree(p, list, lb)
    ensures forall i :: FipInvalid(i) in errs <==>
      0 <= i < |lb.spec.floatingIPs| && !ParseCIDR(p, lb.spec.floatingIPs[i])
    ensures forall i, k :: FipTaken(i, k) in errs <==>
      0 <= i < |lb.spec.floatingIPs| && Taken(list, lb, lb.spec.floatingIPs[i], k)
    ensures forall e :: e in errs ==> e.FipInvalid? || e.FipTaken?
  {
    var used := UsedFloatingIPs(list);
    var fips := lb.spec.floatingIPs;
    errs := [];
    for i := 0 to |fips|
      invariant errs == [] <==> forall n :: 0 <= n < i ==>
        ParseCIDR(p, fips[n]) && (Owner(list, fips[n]).Some? ==> Owner(list, fips[n]).value == lb.key)
      invariant forall n :: FipInvalid(n) in errs <==> 0 <= n < i && !ParseCIDR(p, fips[n])
      invariant forall n, k :: FipTaken(n, k) in errs <==> 0 <= n < i && Taken(list, lb, fips[n], k)
      invariant forall e :: e in errs ==> e.FipInvalid? || e.FipTaken?
    {
      if !ParseCIDR(p, fips[i]) {
        errs := errs + [FipInvalid(i)];
      }
      if fips[i] in used && (used[fips[i]].name != lb.key.name || used[fips[i]].namespace != lb.key.namespace) {
        errs := errs + [FipTaken(i, used[fips[i]])];
      }
    }
  }

  method VerifyPools(p: Parsers, pools: seq<Pool>) returns (errs: seq<FieldError>)
    ensures errs == [] <==> PoolsValid(p, pools)
    ensures forall e :: e in errs ==> (e.CodeInvalid? || e.RangeNotAlone? || e.CidrInvalid?) && 0 <= e.i < |pools|
    ensures forall i, j :: CidrInvalid(i, j) in errs <==>
      0 <= i < |pools| && 0 <= j < |pools[i].frontend.allowedCIDRs| && !ParseCIDR(p, pools[i].frontend.allowedCIDRs[j])
  {
    errs := [];
    for i := 0 to |pools|
      invariant errs == [] <==> forall n :: 0 <= n < i ==> PoolValid(p, pools[n])
      invariant forall e :: e in errs ==> (e.CodeInvalid? || e.RangeNotAlone? || e.CidrInvalid?) && 0 <= e.i < i
      invariant forall n, j :: CidrInvalid(n, j) in errs <==>
        0 <= n < i && 0 <= j < |pools[n].frontend.allowedCIDRs| && !ParseCIDR(p, pools[n].frontend.allowedCIDRs[j])
    {
      var codeErrs := VerifyCodes(i, pools[i].backend.health.http.statusCodes);
      var cidrErrs := VerifyAllowed(p, i, pools[i].frontend.allowedCIDRs);
      errs := errs + codeErrs + cidrErrs;
    }
  }

  method VerifyAllowed(p: Parsers, i: int, cidrs: seq<string>) returns (errs: seq<FieldError>)
    ensures errs == [] <==> forall j :: 0 <= j < |cidrs| ==> ParseCIDR(p, cidrs[j])
    ensures forall e :: e in errs <==> e.CidrInvalid? && e.i == i && 0 <= e.j < |cidrs| && !ParseCIDR(p, cidrs[e.j])
  {
    errs := [];
    for j := 0 to |cidrs|
      invariant errs == [] <==> forall n :: 0 <= n < j ==> ParseCIDR(p, cidrs[n])
      invariant forall e :: e in errs <==> e.CidrInvalid? && e.i == i && 0 <= e.j < j && !ParseCIDR(p, cidrs[e.j])
    {
      if !ParseCIDR(p, cidrs[j]) {
        errs := errs + [CidrInvalid(i, j)];
      }
    }
  }

  /** `verify`: no error is reported exactly for the admitted writes; a failed list call rejects the write. */
  method Verify(p: Parsers, list: Option<seq<LoadBalancer>>, before: Option<LoadBalancer>, lb: LoadBalancer)
    returns (errs: seq<FieldError>)
    ensures errs == [] <==> Admitted(p, list, before, lb)
    ensures list.Some? ==> forall i, k :: FipTaken(i, k) in errs <==>
      0 <= i < |lb.spec.floatingIPs| && Taken(list.value, lb, lb.spec.floatingIPs[i], k)
  {
    var vipErrs := VerifyVips(p, lb.spec.virtualIPs);
    var fipErrs := [FipListFailed];
    if list.Some? {
      fipErrs := VerifyFips(p, list.value, lb);
    }
    var poolErrs := VerifyPools(p, lb.spec.pools);
    var changeErrs := [];
    if before.Some? {
      changeErrs := VerifyChanges(before.value, lb);
    }
    errs := vipErrs + fipErrs + poolErrs + changeErrs;
  }
}
