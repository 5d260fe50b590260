/**
 * The address helpers of wallet.py: `is_valid_solana_address` and
 * `shorten_address`, with Python's slicing and `re.match` semantics
 * written out.
 */
module Wallet {
  import opened Common

  /** The argument of `is_valid_solana_address`: a `str`, or any other Python value. */
  datatype Arg = Str(text: string) | NotStr

  /** The character class `[1-9A-HJ-NP-Za-km-z]`: base58, without 0, I, O and l. */
  predicate IsBase58Char(c: char) {
    ('1' <= c <= '9') || ('A' <= c <= 'H') || ('J' <= c <= 'N') || ('P' <= c <= 'Z')
    || ('a' <= c <= 'k') || ('m' <= c <= 'z')
  }

  predicate AllBase58(s: string) {
    forall i :: 0 <= i < |s| ==> IsBase58Char(s[i])
  }

  /** Python's `$` (without MULTILINE) matches at the end, or just before a newline that ends the string. */
  predicate DollarMatchesAt(s: string, k: nat) {
    k == |s| || (k + 1 == |s| && s[k] == '\n')
  }

  /**
   * `re.match(r'^[1-9A-HJ-NP-Za-km-z]+$', s)` succeeds: some non-empty
   * prefix is all base58 and `$` matches right after it.
   */
  predicate PatternMatches(s: string) {
    exists k :: 1 <= k <= |s| && AllBase58(s[..k]) && DollarMatchesAt(s, k)
  }

  /** The pattern accepts all-base58 strings and, through `$`, the same followed by one final newline. */
  lemma PatternMatchesExactly(s: string)
    ensures PatternMatches(s) <==>
      (|s| >= 1 && AllBase58(s)) || (|s| >= 2 && s[|s| - 1] == '\n' && AllBase58(s[..|s| - 1]))
  {
    if |s| >= 1 && AllBase58(s) {
      assert s[..|s|] == s;
      assert DollarMatchesAt(s, |s|);
    } else if |s| >= 2 && s[|s| - 1] == '\n' && AllBase58(s[..|s| - 1]) {
      assert DollarMatchesAt(s, |s| - 1);
    }
    if PatternMatches(s) {
      var k :| 1 <= k <= |s| && AllBase58(s[..k]) && DollarMatchesAt(s, k);
      if k == |s| {
        assert s[..k] == s;
      }
    }
  }

  /** `is_valid_solana_address` as written (wallet.py lines 93-100). */
  function IsValidSolanaAddress(a: Arg): (b: bool)
    ensures b <==> a.Str? && 32 <= |a.text| <= 44 && PatternMatches(a.text)
  {
    if a.NotStr? || a.text == "" then false
    else if |a.text| < 32 || |a.text| > 44 then false
    else PatternMatches(a.text)
  }

  /** The validator as evidently intended: 32 to 44 base58 characters and nothing else. */
  function IsValidSolanaAddressStrict(a: Arg): (b: bool)
    ensures b <==> a.Str? && 32 <= |a.text| <= 44 && AllBase58(a.text)
  {
    a.Str? && 32 <= |a.text| <= 44 && AllBase58(a.text)
  }

  /** A valid address never holds the characters base58 leaves out. */
  lemma StrictExcludesAmbiguousChars(a: Arg)
    requires IsValidSolanaAddressStrict(a)
    ensures '0' !in a.text && 'I' !in a.text && 'O' !in a.text && 'l' !in a.text
  {
  }

  /**
   * The written validator accepts everything the intended one does, and
   * besides that only 32..44-character strings that end in a newline after
   * base58 characters.
   */
  lemma AsWrittenVersusStrict(a: Arg)
    ensures IsValidSolanaAddressStrict(a) ==> IsValidSolanaAddress(a)
    ensures IsValidSolanaAddress(a) && !IsValidSolanaAddressStrict(a) ==>
      a.text[|a.text| - 1] == '\n' && AllBase58(a.text[..|a.text| - 1])
  {
    if a.Str? {
      PatternMatchesExactly(a.text);
    }
  }

  /** Thirty-two '1's and a newline pass the written check but are no address. */
  lemma TrailingNewlineAccepted()
    ensures var a := Str(seq(32, i => '1') + "\n");
      IsValidSolanaAddress(a) && !IsValidSolanaAddressStrict(a)
  {
    var s := seq(32, i => '1') + "\n";
    assert AllBase58(s[..32]);
    assert DollarMatchesAt(s, 32);
    assert !IsBase58Char(s[32]);
  }

  /** Python `s[:n]`: a negative `n` counts from the end; out-of-range bounds are clamped. */
  function PyPrefix(s: string, n: int): (r: string)
    ensures r <= s
    ensures 0 <= n ==> |r| == Min(n, |s|)
    ensures n < 0 ==> |r| == Max(0, |s| + n)
  {
    if 0 <= n then s[..Min(n, |s|)] else s[..Max(0, |s| + n)]
  }

  /** Python `s[start:]`: a negative `start` counts from the end; out-of-range bounds are clamped. */
  function PySuffix(s: string, start: int): (r: string)
    ensures |r| <= |s| && r == s[|s| - |r|..]
    ensures 0 <= start ==> |r| == |s| - Min(start, |s|)
    ensures start < 0 ==> |r| == Min(-start, |s|)
  {
    if 0 <= start then s[Min(start, |s|)..] else s[Max(0, |s| + start)..]
  }

  /** `shorten_address` (wallet.py lines 103-107). */
  function ShortenAddress(address: string, chars: int := 4): (r: string)
    ensures address == "" ==> r == ""
    ensures address != "" && chars > 0 ==>
      var n := Min(chars, |address|);
      r == address[..n] + "..." + address[|address| - n..]
    ensures address != "" && chars == 0 ==> r == "..." + address
    ensures address != "" && chars < 0 ==>
      r == address[..Max(0, |address| + chars)] + "..." + address[Min(-chars, |address|)..]
  {
    if address == "" then "" else PyPrefix(address, chars) + "..." + PySuffix(address, -chars)
  }

  /** An address longer than twice `chars` is shortened to `2 * chars + 3` characters, its ends kept. */
  lemma ShortenedLength(address: string, chars: int)
    requires 0 < chars && 2 * chars < |address|
    ensures var r := ShortenAddress(address, chars);
      && |r| == 2 * chars + 3
      && r[..chars] == address[..chars]
      && r[chars..chars + 3] == "..."
      && r[chars + 3..] == address[|address| - chars..]
  {
  }

  /** An address no longer than `chars` is repeated whole on both sides. */
  lemma ShortAddressRepeated(address: string, chars: int)
    requires address != "" && |address| <= chars
    ensures ShortenAddress(address, chars) == address + "..." + address
  {
    assert address[..|address|] == address;
  }
}
