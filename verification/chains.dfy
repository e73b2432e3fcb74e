/** Which configured chain the wallet is on: the lookup in
    SimpleDemo/components/SimpleChat.tsx (lines 84-92) that matches the
    network's numeric chain id against the `chainId` strings of the chain
    configuration. The configuration is a parameter, in key order. */
module Chains {
  import opened Common
  import opened Text
  import opened Numerals

  datatype ChainConfig = ChainConfig(key: string, chainId: string)

  /** How one configuration entry compares with the network id: `find`
      stops on a match, moves on otherwise, and the whole lookup is abandoned
      when `BigInt` throws on a malformed id. */
  datatype Verdict = Match | NoMatch | Throws

  /** The digits `BigInt` reads after `0x`: trailing spaces are dropped, and
      what is left must be one or more hexadecimal digits. */
  predicate HexRun(digits: string) {
    TrimEnd(digits) != [] && AllHexDigits(TrimEnd(digits))
  }

  /** `BigInt("0x" + digits)`: the value of a hexadecimal run, or `None`
      where `BigInt` throws. */
  function BigIntHex(digits: string): (r: Option<nat>)
    ensures r.Some? <==> HexRun(digits)
    ensures r.Some? ==> r.value == HexNat(TrimEnd(digits))
  {
    HexValue(TrimEnd(digits))
  }

  /** `config.chainId.replace('0x', '')` */
  function Stripped(chainId: string): string {
    ReplaceFirst(chainId, "0x", "")
  }

  /** The two string comparisons: `0x` and `toString(16)`, or `toString()`. */
  predicate SpelledAs(chainId: string, n: nat) {
    chainId == "0x" + ToHex(n) || chainId == ToDecimal(n)
  }

  /** The predicate passed to `find`, evaluated left to right with `||`
      short-circuiting, so `BigInt` only runs when both string comparisons
      fail and the stripped id is non-empty. */
  function Compare(chainId: string, n: nat): (v: Verdict)
    ensures v == Match <==>
      SpelledAs(chainId, n) || (HexRun(Stripped(chainId)) && HexNat(TrimEnd(Stripped(chainId))) == n)
    ensures v == Throws <==>
      !SpelledAs(chainId, n) && Stripped(chainId) != "" && !HexRun(Stripped(chainId))
    ensures v == NoMatch <==>
      && !SpelledAs(chainId, n)
      && (Stripped(chainId) == "" || (HexRun(Stripped(chainId)) && HexNat(TrimEnd(Stripped(chainId))) != n))
  {
    var stripped := Stripped(chainId);
    if SpelledAs(chainId, n) then Match
    else if stripped == "" then NoMatch
    else
      match BigIntHex(stripped)
      case None => Throws
      case Some(v) => if v == n then Match else NoMatch
  }

  datatype Lookup = Found(key: string) | NotFound | Aborted

  /** Every entry before position `i` was compared and did not match. */
  ghost predicate NoMatchBefore(configs: seq<ChainConfig>, n: nat, i: int) {
    forall j | 0 <= j < i && j < |configs| :: Compare(configs[j].chainId, n) == NoMatch
  }

  /** `Object.keys(CHAIN_CONFIGS).find(…)` inside its `try`: the first entry
      that matches, unless an earlier entry makes `BigInt` throw. */
  function Find(configs: seq<ChainConfig>, n: nat): (r: Lookup)
    ensures r.Found? ==> exists i | 0 <= i < |configs| ::
      configs[i].key == r.key && Compare(configs[i].chainId, n) == Match && NoMatchBefore(configs, n, i)
    ensures r.Aborted? ==> exists i | 0 <= i < |configs| ::
      Compare(configs[i].chainId, n) == Throws && NoMatchBefore(configs, n, i)
    ensures r.NotFound? <==> NoMatchBefore(configs, n, |configs|)
    decreases |configs|
  {
    if configs == [] then NotFound
    else
      match Compare(configs[0].chainId, n)
      case Match =>
        assert NoMatchBefore(configs, n, 0);
        Found(configs[0].key)
      case Throws =>
        assert NoMatchBefore(configs, n, 0);
        Aborted
      case NoMatch =>
        var rest := Find(configs[1..], n);
        ShiftNoMatch(configs, n);
        rest
  }

  /** Moving past the first entry: no match before `i + 1` is no match in
      the first entry and none before `i` in the rest. */
  lemma ShiftNoMatch(configs: seq<ChainConfig>, n: nat)
    requires configs != []
    ensures forall i | 0 <= i <= |configs| - 1 ::
      NoMatchBefore(configs, n, i + 1) <==>
        Compare(configs[0].chainId, n) == NoMatch && NoMatchBefore(configs[1..], n, i)
  {
    forall i | 0 <= i <= |configs| - 1
      ensures NoMatchBefore(configs, n, i + 1) <==>
        Compare(configs[0].chainId, n) == NoMatch && NoMatchBefore(configs[1..], n, i)
    {
      if Compare(configs[0].chainId, n) == NoMatch && NoMatchBefore(configs[1..], n, i) {
        forall j | 0 <= j < i + 1 && j < |configs|
          ensures Compare(configs[j].chainId, n) == NoMatch
        {
          if j > 0 {
            assert configs[j] == configs[1..][j - 1];
          }
        }
      }
      if NoMatchBefore(configs, n, i + 1) {
        forall j | 0 <= j < i && j < |configs| - 1
          ensures Compare(configs[1..][j].chainId, n) == NoMatch
        {
          assert configs[1..][j] == configs[j + 1];
        }
      }
    }
  }

  /** `setCurrentChain(chain || null)`: the lookup's key, where an empty key
      and an abandoned lookup both read as "no chain". */
  function CurrentChain(configs: seq<ChainConfig>, n: nat): (r: Option<string>)
    ensures r.Some? ==> r.value != "" && Find(configs, n) == Found(r.value)
    ensures Find(configs, n).Found? && Find(configs, n).key != "" ==> r == Some(Find(configs, n).key)
  {
    match Find(configs, n)
    case Found(k) => if k != "" then Some(k) else None
    case _ => None
  }

  /** The position of the first id equal to `n`. */
  function FirstIndex(ids: seq<nat>, n: nat): (r: Option<nat>)
    ensures r.Some? ==> r.value < |ids| && ids[r.value] == n && forall j | 0 <= j < r.value :: ids[j] != n
    ensures r.None? ==> n !in ids
  {
    if ids == [] then None
    else if ids[0] == n then Some(0)
    else match FirstIndex(ids[1..], n)
      case None => None
      case Some(k) => Some(k + 1)
  }

  /** A configuration id written as `0x` and the canonical hexadecimal digits
      of `m` matches network `n` exactly when `m == n`. */
  lemma CanonicalHexCompare(m: nat, n: nat)
    ensures Compare("0x" + ToHex(m), n) == (if m == n then Match else NoMatch)
  {
    var id := "0x" + ToHex(m);
    if m != n {
      if ToHex(m) == ToHex(n) {
        ToHexInjective(m, n);
      }
      assert id != "0x" + ToHex(n) by {
        assert id[2..] == ToHex(m);
      }
      assert id != ToDecimal(n) by {
        if |id| == |ToDecimal(n)| {
          assert !IsDecimalDigit(id[1]);
        }
      }
      assert OccursAt(id, "0x", 0);
      assert ReplaceFirst(id, "0x", "") == ToHex(m);
      NoSpacesInHex(ToHex(m));
      HexRoundTrip(m);
    }
  }

  /** Any `0x` spelling of `n` matches, leading zeros and upper case included:
      the `BigInt` comparison catches what the string comparisons miss. */
  lemma HexSpellingMatches(digits: string, n: nat)
    requires HexValue(digits) == Some(n)
    ensures Compare("0x" + digits, n) == Match
  {
    var id := "0x" + digits;
    assert OccursAt(id, "0x", 0);
    assert ReplaceFirst(id, "0x", "") == digits;
    NoSpacesInHex(digits);
  }

  lemma NoSpacesInHex(s: string)
    requires AllHexDigits(s) && s != []
    ensures TrimEnd(s) == s
  {
    assert !IsSpace(s[|s| - 1]);
  }

  /** With every chain id written the way MetaMask reports them (`0x` and
      lower-case digits without leading zeros), the lookup finds the first
      configuration whose id is the network's, and nothing otherwise. */
  lemma {:induction false} FindCanonical(configs: seq<ChainConfig>, ids: seq<nat>, n: nat)
    requires |configs| == |ids|
    requires forall i | 0 <= i < |configs| :: configs[i].chainId == "0x" + ToHex(ids[i])
    ensures Find(configs, n) == match FirstIndex(ids, n)
                                case None => NotFound
                                case Some(i) => Found(configs[i].key)
    decreases |configs|
  {
    if configs != [] {
      CanonicalHexCompare(ids[0], n);
      if ids[0] != n {
        FindCanonical(configs[1..], ids[1..], n);
      }
    }
  }
}
