/** Deployment names, and the allocation of the network segment indices that they carry. */
module NetworkIndex {
  import opened Decimals
  import opened Wrappers

  const PREFIX := "service-fabrik"
  const LENGTH: nat := 4
  const UPPER_BOUND: nat := 9999
  const GUID_LENGTH: nat := 36

  predicate IsHex(c: char) { IsDigit(c) || 'a' <= c <= 'f' }

  // ---- Names ----

  function Adjust(i: int): string {
    PadStart(ToString(i), LENGTH)
  }

  /** An empty subnet stands for none. */
  function SubnetPrefix(subnet: string): string {
    PREFIX + if subnet == "" then "" else "_" + subnet
  }

  function DeploymentName(subnet: string, index: int, guid: string): string {
    SubnetPrefix(subnet) + "-" + Adjust(index) + "-" + guid
  }

  predicate IsGuid(s: string) {
    && |s| == GUID_LENGTH
    && forall i | 0 <= i < GUID_LENGTH :: if i in {8, 13, 18, 23} then s[i] == '-' else IsHex(s[i])
  }

  /** A guid is hexadecimal in groups of 8, 4, 4, 4 and 12 digits. */
  lemma GuidsAre(s: string)
    ensures IsGuid(s) <==>
      && |s| == 36 && s[8] == '-' && s[13] == '-' && s[18] == '-' && s[23] == '-'
      && forall i | 0 <= i < 36 && i != 8 && i != 13 && i != 18 && i != 23 :: '0' <= s[i] <= '9' || 'a' <= s[i] <= 'f'
  {
  }

  datatype Parts = Parts(index: nat, guid: string)

  /** Matching against the name grammar of a subnet, taken literally. */
  function ParseName(subnet: string, name: string): Option<Parts> {
    var p := SubnetPrefix(subnet);
    var n := |p|;
    if |name| != n + 1 + LENGTH + 1 + GUID_LENGTH || name[..n] != p || name[n] != '-' || name[n + 1 + LENGTH] != '-' then None
    else
      var digits, guid := name[n + 1..n + 1 + LENGTH], name[n + 2 + LENGTH..];
      if (forall c | c in digits :: IsDigit(c)) && IsGuid(guid) then Some(Parts(ParseInt(digits), guid)) else None
  }

  lemma NameParts(p: string, d: string, guid: string)
    ensures var name, n := p + "-" + d + "-" + guid, |p|;
      && |name| == n + 1 + |d| + 1 + |guid|
      && name[..n] == p && name[n] == '-' && name[n + 1..n + 1 + |d|] == d
      && name[n + 1 + |d|] == '-' && name[n + 2 + |d|..] == guid
  {
  }

  /** A name of the form that the grammar asks for is split at its index. */
  lemma SplitName(subnet: string, d: string, guid: string)
    requires IsGuid(guid)
    ensures ParseName(subnet, SubnetPrefix(subnet) + "-" + d + "-" + guid)
         == if |d| == LENGTH && forall c | c in d :: IsDigit(c) then Some(Parts(ParseInt(d), guid)) else None
  {
    NameParts(SubnetPrefix(subnet), d, guid);
  }

  /** The sign of a negative index is in the way. */
  lemma NegativeIndex(index: int)
    requires index < 0
    ensures '-' in Adjust(index)
  {
    var printed := ToString(index);
    assert printed[0] == '-';
    var zeros := Zeros(if |printed| < LENGTH then LENGTH - |printed| else 0);
    assert (zeros + printed)[|zeros|] == '-';
  }

  /** Printing and parsing is a round trip exactly for the indices that fit four digits. */
  lemma NameRoundTrip(subnet: string, index: int, guid: string)
    requires IsGuid(guid)
    ensures ParseName(subnet, DeploymentName(subnet, index, guid))
         == if 0 <= index <= UPPER_BOUND then Some(Parts(index, guid)) else None
  {
    SplitName(subnet, Adjust(index), guid);
    assert Pow10(LENGTH) == UPPER_BOUND + 1;
    if index < 0 {
      NegativeIndex(index);
    } else {
      DecimalLength(index, LENGTH);
      if index <= UPPER_BOUND {
        PadIsPaddedDecimal(index, LENGTH);
        ParsePad(index, LENGTH);
      }
    }
  }

  /** Exactly the printed names of indices of four digits are parsed, and what they are parsed to is what was printed. */
  lemma ParsesExactlyNames(subnet: string, name: string)
    ensures ParseName(subnet, name).Some? <==>
      exists index, guid :: 0 <= index <= 9999 && IsGuid(guid) && name == DeploymentName(subnet, index, guid)
    ensures ParseName(subnet, name).Some? ==>
      var parts := ParseName(subnet, name).value;
      parts.index <= 9999 && IsGuid(parts.guid) && name == DeploymentName(subnet, parts.index, parts.guid)
  {
    forall index, guid | 0 <= index <= 9999 && IsGuid(guid) && name == DeploymentName(subnet, index, guid)
      ensures ParseName(subnet, name).Some?
    {
      NameRoundTrip(subnet, index, guid);
    }
    if ParseName(subnet, name).Some? {
      var p := SubnetPrefix(subnet);
      var digits := name[|p| + 1..|p| + 5];
      var parts := ParseName(subnet, name).value;
      assert Pow10(4) == 10000;
      PadParsed(digits);
      PadIsPaddedDecimal(parts.index, 4);
      assert name == p + "-" + digits + "-" + parts.guid == DeploymentName(subnet, parts.index, parts.guid);
    }
  }

  /** No name belongs to two subnets. */
  lemma NameHasOneSubnet(a: string, b: string, name: string)
    requires ParseName(a, name).Some? && ParseName(b, name).Some?
    ensures a == b
  {
    assert SubnetPrefix(a) == SubnetPrefix(b);
    assert SubnetPrefix(a)[|PREFIX|..] == if a == "" then "" else "_" + a;
    assert SubnetPrefix(b)[|PREFIX|..] == if b == "" then "" else "_" + b;
    if a != "" && b != "" {
      assert ("_" + a)[1..] == a && ("_" + b)[1..] == b;
    }
  }

  /** A name is the prefix, the subnet, the four digits of the index and the guid. */
  lemma NameReads(subnet: string, index: nat, guid: string)
    requires index <= 9999
    ensures var d := Adjust(index);
      && DeploymentName(subnet, index, guid) == "service-fabrik" + (if subnet == "" then "" else "_" + subnet) + "-" + d + "-" + guid
      && |d| == 4 && IsDigit(d[0]) && IsDigit(d[1]) && IsDigit(d[2]) && IsDigit(d[3])
      && index == DigitOf(d[0]) * 1000 + DigitOf(d[1]) * 100 + DigitOf(d[2]) * 10 + DigitOf(d[3])
  {
    assert Pow10(4) == 10000;
    PadIsPaddedDecimal(index, 4);
    ParsePad(index, 4);
    var d := Adjust(index);
    assert d[0] in d && d[1] in d && d[2] in d && d[3] in d;
    ParseFour(d);
  }

  lemma ParseFour(d: string)
    requires |d| == 4 && forall c | c in d :: IsDigit(c)
    ensures ParseInt(d) == DigitOf(d[0]) * 1000 + DigitOf(d[1]) * 100 + DigitOf(d[2]) * 10 + DigitOf(d[3])
  {
    var three, two, one := d[..3], d[..2], d[..1];
    assert three[..2] == two && two[..1] == one && one[..0] == [];
    assert ParseInt(three) == 10 * ParseInt(two) + DigitOf(d[2]);
    assert ParseInt(two) == 10 * ParseInt(one) + DigitOf(d[1]);
  }

  // ---- Indices ----

  ghost predicate IsUsed(deployments: seq<string>, subnet: string, index: int) {
    exists name :: name in deployments && ParseName(subnet, name).Some? && ParseName(subnet, name).value.index == index
  }

  method GetUsedIndices(deployments: seq<string>, subnet: string) returns (indices: seq<nat>)
    ensures forall i: int :: i in indices <==> IsUsed(deployments, subnet, i)
  {
    indices := [];
    for k := 0 to |deployments|
      invariant forall i: int :: i in indices <==> IsUsed(deployments[..k], subnet, i)
    {
      var match_ := ParseName(subnet, deployments[k]);
      assert deployments[..k + 1] == deployments[..k] + [deployments[k]];
      ghost var before := indices;
      if match_.Some? {
        indices := indices + [match_.value.index];
      }
      forall i: int ensures i in indices <==> IsUsed(deployments[..k + 1], subnet, i) {
        if i in indices {
          if i in before { assert IsUsed(deployments[..k], subnet, i); }
          else { assert deployments[k] in deployments[..k + 1]; }
        }
      }
    }
    assert deployments[..|deployments|] == deployments;
  }

  /** The free indices are exactly those below the capacity that no deployment of the subnet carries. */
  method GetFreeIndices(deployments: seq<string>, subnet: string, capacity: real) returns (free: seq<nat>)
    ensures forall i: int :: i in free <==> 0 <= i && i as real < capacity && !IsUsed(deployments, subnet, i)
  {
    var used := GetUsedIndices(deployments, subnet);
    free := [];
    var i: nat := 0;
    while i as real < capacity
      invariant i == 0 || (i - 1) as real < capacity
      invariant forall j: int :: j in free <==> 0 <= j < i && !IsUsed(deployments, subnet, j)
      decreases capacity.Floor - i
    {
      if i !in used {
        free := free + [i];
      }
      i := i + 1;
    }
  }

  function AtMost(x: real, bound: real): real { if x < bound then x else bound }

  /** The configured capacity, or what the smallest subnet leaves room for; never more than four digits can
      tell apart. No subnet at all counts as an infinite one. */
  method CalculateCapacity(configured: Option<real>, subnetLengths: seq<nat>, size: real, offset: real) returns (capacity: real)
    requires size != 0.0 && (size > 0.0 || subnetLengths != [])
    ensures configured.Some? && configured.value >= 1.0 ==> capacity == AtMost(configured.value, 10000.0)
    ensures (configured.None? || configured.value < 1.0) && subnetLengths == [] ==> capacity == 10000.0
    ensures (configured.None? || configured.value < 1.0) && subnetLengths != [] ==>
        exists l: nat :: l in subnetLengths && (forall m | m in subnetLengths :: l <= m)
          && capacity == AtMost(l as real / size - offset - 1.0, 10000.0)
    ensures capacity <= (UPPER_BOUND + 1) as real
  {
    if configured.Some? && configured.value >= 1.0 {
      return AtMost(configured.value, 10000.0);
    }
    var minSubnetSize: Option<nat> := None;
    for k := 0 to |subnetLengths|
      invariant minSubnetSize.None? <==> k == 0
      invariant minSubnetSize.Some? ==> minSubnetSize.value in subnetLengths
      invariant forall j | 0 <= j < k :: minSubnetSize.value <= subnetLengths[j]
    {
      if minSubnetSize.None? || subnetLengths[k] < minSubnetSize.value {
        minSubnetSize := Some(subnetLengths[k]);
      }
    }
    capacity := 10000.0;
    if minSubnetSize.Some? {
      capacity := AtMost(minSubnetSize.value as real / size - offset - 1.0, 10000.0);
    }
  }

  // ---- Creating deployments one after the other ----

  datatype Acquired = Index(index: nat) | AlreadyExists | NoneFree

  predicate EndsWith(s: string, suffix: string) {
    |suffix| <= |s| && s[|s| - |suffix|..] == suffix
  }

  class Director {
    var deployments: seq<string>

    constructor ()
      ensures deployments == [] && Valid()
    {
      deployments := [];
    }

    /** Deployments of one subnet carry pairwise different indices, and all instances are different. */
    ghost predicate Valid()
      reads this
    {
      forall i, j, a, b {:trigger ParseName(a, deployments[i]), ParseName(b, deployments[j])} |
          0 <= i < j < |deployments| && ParseName(a, deployments[i]).Some? && ParseName(b, deployments[j]).Some? ::
          && (a == b ==> ParseName(a, deployments[i]).value.index != ParseName(b, deployments[j]).value.index)
          && ParseName(a, deployments[i]).value.guid != ParseName(b, deployments[j]).value.guid
    }

    /** `choice` stands for the random sample among the free indices; `cached` holds the names of deployments that
        are still to come, while requests to the director are rate limited. */
    method AcquireNetworkSegmentIndex(guid: string, subnet: string, capacity: real, choice: nat, cached: seq<string>) returns (r: Acquired)
      ensures r.AlreadyExists? <==> exists name ::
          name in deployments + cached && |guid| <= |name| && name[|name| - |guid|..] == guid
      ensures r.Index? ==> r.index as real < capacity && !IsUsed(deployments + cached, subnet, r.index)
      ensures r.NoneFree? ==> forall i: nat | i as real < capacity :: IsUsed(deployments + cached, subnet, i)
    {
      var names := deployments + cached;
      for k := 0 to |names|
        invariant forall j | 0 <= j < k :: !EndsWith(names[j], guid)
      {
        if EndsWith(names[k], guid) { return AlreadyExists; }
      }
      var free := GetFreeIndices(names, subnet, capacity);
      if |free| == 0 { return NoneFree; }
      r := Index(free[choice % |free|]);
      assert r.index in free;
    }

    method CreateDeployment(guid: string, subnet: string, capacity: real, choice: nat, cached: seq<string>) returns (r: Acquired)
      requires Valid() && IsGuid(guid) && capacity <= (UPPER_BOUND + 1) as real
      modifies this
      ensures Valid()
      ensures deployments == if r.Index? then old(deployments) + [DeploymentName(subnet, r.index, guid)] else old(deployments)
      ensures r.Index? ==> ParseName(subnet, DeploymentName(subnet, r.index, guid)) == Some(Parts(r.index, guid))
    {
      r := AcquireNetworkSegmentIndex(guid, subnet, capacity, choice, cached);
      if r.Index? {
        var name := DeploymentName(subnet, r.index, guid);
        NameRoundTrip(subnet, r.index, guid);
        forall i, a, b | 0 <= i < |deployments| && ParseName(a, deployments[i]).Some? && ParseName(b, name).Some?
          ensures a == b ==> ParseName(a, deployments[i]).value.index != ParseName(b, name).value.index
          ensures ParseName(a, deployments[i]).value.guid != ParseName(b, name).value.guid
        {
          NameHasOneSubnet(b, subnet, name);
          assert deployments[i] in deployments && deployments[i] in deployments + cached;
          assert EndsWith(deployments[i], ParseName(a, deployments[i]).value.guid);
        }
        deployments := deployments + [name];
      }
    }

    method DeleteDeployment(name: string)
      requires Valid()
      modifies this
      ensures Valid()
      ensures name in old(deployments) ==> exists k ::
          && 0 <= k < |old(deployments)| && old(deployments)[k] == name
          && deployments == old(deployments)[..k] + old(deployments)[k + 1..]
      ensures name !in old(deployments) ==> deployments == old(deployments)
    {
      for k := 0 to |deployments|
        invariant deployments == old(deployments) && name !in deployments[..k]
      {
        if deployments[k] == name {
          deployments := deployments[..k] + deployments[k + 1..];
          return;
        }
      }
    }
  }
}
