// Phone-number string helpers: normalisation, the `+`-and-digits format check
// and the membership test against a set of available numbers.

module Helpers {

  import opened Wrappers
  import opened PyText
  import opened PyValue
  import Http
  import Config
  import ApiClient

  /** `normalize_phone_number`: strip the surrounding whitespace, then delete
      every space and every dash. */
  function Normalize(s: string): (r: string)
    ensures ' ' !in r && '-' !in r
    ensures |r| <= |s|
    ensures forall x :: x in r ==> x in s
  {
    Unseparated(Strip(s))
  }

  /** The text with every space and every dash deleted. */
  function Unseparated(s: string): string
  {
    Remove(Remove(s, ' '), '-')
  }

  lemma UnseparatedConcat(a: string, b: string)
    ensures Unseparated(a + b) == Unseparated(a) + Unseparated(b)
  {
    RemoveConcat(a, b, ' ');
    RemoveConcat(Remove(a, ' '), Remove(b, ' '), '-');
  }

  /** The only whitespace `s` contains is the plain space. */
  predicate SpacesOnly(s: string)
  {
    forall i :: 0 <= i < |s| && IsSpace(s[i]) ==> s[i] == ' '
  }

  // ---------------------------------------------------------------------------
  // Normalisation only deletes characters

  /** `a` can be obtained from `b` by deleting characters. */
  predicate Subsequence(a: string, b: string)
    decreases |b|
  {
    if a == [] then true
    else if b == [] then false
    else if a[0] == b[0] then Subsequence(a[1..], b[1..])
    else Subsequence(a, b[1..])
  }

  lemma {:induction false} SubsequenceCons(a: string, x: char, b: string)
    requires Subsequence(a, b)
    ensures Subsequence(a, [x] + b)
    decreases |a| + |b| + 1
  {
    assert ([x] + b)[1..] == b;
    if a != [] && a[0] == x {
      SubsequenceTail(a, b);
    }
  }

  lemma {:induction false} SubsequenceTail(a: string, b: string)
    requires a != [] && Subsequence(a, b)
    ensures Subsequence(a[1..], b)
    decreases |a| + |b|
  {
    assert b == [b[0]] + b[1..];
    if a[0] == b[0] {
      if a[1..] != [] {
        SubsequenceCons(a[1..], b[0], b[1..]);
      }
    } else {
      SubsequenceTail(a, b[1..]);
      SubsequenceCons(a[1..], b[0], b[1..]);
    }
  }

  lemma {:induction false} SubsequencePrefix(a: string, p: string, b: string)
    requires Subsequence(a, b)
    ensures Subsequence(a, p + b)
  {
    if p != [] {
      SubsequencePrefix(a, p[1..], b);
      assert p + b == [p[0]] + (p[1..] + b);
      SubsequenceCons(a, p[0], p[1..] + b);
    } else {
      assert p + b == b;
    }
  }

  lemma {:induction false} SubsequenceSuffix(a: string, b: string, q: string)
    requires Subsequence(a, b)
    ensures Subsequence(a, b + q)
  {
    if a != [] {
      assert (b + q)[0] == b[0];
      assert (b + q)[1..] == b[1..] + q;
      if a[0] == b[0] {
        SubsequenceSuffix(a[1..], b[1..], q);
      } else {
        SubsequenceSuffix(a, b[1..], q);
      }
    }
  }

  /** Deleting the spaces and then the dashes keeps the rest in order. */
  lemma {:induction false} RemoveBothSubsequence(s: string)
    ensures Subsequence(Remove(Remove(s, ' '), '-'), s)
  {
    if s != [] {
      RemoveBothSubsequence(s[1..]);
      var rest := Remove(Remove(s[1..], ' '), '-');
      assert s == [s[0]] + s[1..];
      if s[0] == ' ' || s[0] == '-' {
        if s[0] == '-' {
          assert Remove(s, ' ') == ['-'] + Remove(s[1..], ' ');
          assert Remove(['-'] + Remove(s[1..], ' '), '-') == rest;
        }
        SubsequenceCons(rest, s[0], s[1..]);
      } else {
        assert Remove(s, ' ') == [s[0]] + Remove(s[1..], ' ');
        assert Remove([s[0]] + Remove(s[1..], ' '), '-') == [s[0]] + rest;
      }
    }
  }

  /** `normalize_phone_number` only deletes characters: what it returns is the
      middle of its input with the spaces and dashes taken out, the cut-off ends
      are whitespace, and the result is a subsequence of the input. */
  lemma NormalizeDeletesOnly(s: string) returns (lo: nat, hi: nat)
    ensures lo <= hi <= |s| && Normalize(s) == Remove(Remove(s[lo..hi], ' '), '-')
    ensures forall i :: (0 <= i < lo || hi <= i < |s|) ==> IsSpace(s[i])
    ensures Subsequence(Normalize(s), s)
  {
    lo, hi := StripSlice(s);
    RemoveBothSubsequence(s[lo..hi]);
    SubsequencePrefix(Normalize(s), s[..lo], s[lo..hi]);
    SubsequenceSuffix(Normalize(s), s[..lo] + s[lo..hi], s[hi..]);
    Reassemble(s, lo, hi);
  }

  /** A normalised number has no whitespace when the input had none but spaces. */
  lemma NormalizeNoSpace(s: string)
    requires SpacesOnly(s)
    ensures HasNoSpace(Normalize(s))
  {
    var n := Normalize(s);
    forall i | 0 <= i < |n| ensures !IsSpace(n[i]) {
      assert n[i] in n;
      assert n[i] in s;
    }
  }

  /** Normalising twice changes nothing, for inputs whose only whitespace is the space. */
  lemma NormalizeIdempotent(s: string)
    requires SpacesOnly(s)
    ensures Normalize(Normalize(s)) == Normalize(s)
  {
    var n := Normalize(s);
    NormalizeNoSpace(s);
    StripNoSpace(n);
    RemoveAbsent(n, ' ');
    RemoveAbsent(n, '-');
  }

  /** A run of spaces disappears entirely. */
  lemma {:induction false} UnseparatedSpaces(s: string)
    requires forall i :: 0 <= i < |s| ==> s[i] == ' '
    ensures Unseparated(s) == []
  {
    if s != [] {
      UnseparatedSpaces(s[1..]);
      assert s == [s[0]] + s[1..];
      UnseparatedConcat([s[0]], s[1..]);
    }
  }

  /** A stretch of whitespace in a string whose only whitespace is the space disappears. */
  lemma SpaceRun(s: string, a: nat, b: nat)
    requires SpacesOnly(s) && a <= b <= |s|
    requires forall i :: a <= i < b ==> IsSpace(s[i])
    ensures Unseparated(s[a..b]) == []
  {
    var run := s[a..b];
    forall i | 0 <= i < |run| ensures run[i] == ' ' {
      assert run[i] == s[a + i];
    }
    UnseparatedSpaces(run);
  }

  /** With no whitespace but spaces, stripping adds nothing to deleting the spaces. */
  lemma NormalizeSpacesOnly(s: string)
    requires SpacesOnly(s)
    ensures Normalize(s) == Unseparated(s)
  {
    var lo, hi := StripSlice(s);
    SpaceRun(s, 0, lo);
    SpaceRun(s, hi, |s|);
    assert s[0..lo] == s[..lo] && s[hi..|s|] == s[hi..];
    var pre, mid, post := s[..lo], s[lo..hi], s[hi..];
    var u := Unseparated(mid);
    UnseparatedConcat(pre, mid);
    assert Unseparated(pre + mid) == u;
    UnseparatedConcat(pre + mid, post);
    Reassemble(s, lo, hi);
    assert Normalize(s) == u;
  }

  lemma SpacesOnlyInsert(a: string, c: char, b: string)
    requires c == ' ' || c == '-'
    requires SpacesOnly(a + b)
    ensures SpacesOnly(a + [c] + b)
  {
    var x := a + [c] + b;
    forall i | 0 <= i < |x| && IsSpace(x[i]) ensures x[i] == ' ' {
      if i < |a| {
        assert x[i] == (a + b)[i];
      } else if i > |a| {
        assert x[i] == (a + b)[i - 1];
      }
    }
  }

  /** A lone space or dash disappears. */
  lemma UnseparatedSeparator(c: char)
    requires c == ' ' || c == '-'
    ensures Unseparated([c]) == []
  {
    assert [c][1..] == [];
    if c == '-' {
      assert Remove([c], ' ') == [c];
    }
  }

  /** Inserting a space or a dash anywhere does not change the normal form,
      for inputs whose only whitespace is the space. */
  lemma NormalizeIgnoresSeparator(a: string, c: char, b: string)
    requires c == ' ' || c == '-'
    requires SpacesOnly(a + b)
    ensures Normalize(a + [c] + b) == Normalize(a + b)
  {
    SpacesOnlyInsert(a, c, b);
    NormalizeSpacesOnly(a + [c] + b);
    NormalizeSpacesOnly(a + b);
    UnseparatedConcat(a + [c], b);
    UnseparatedConcat(a, [c]);
    UnseparatedConcat(a, b);
    UnseparatedSeparator(c);
    assert Unseparated(a + [c]) == Unseparated(a);
  }

  // ---------------------------------------------------------------------------
  // The format check `^\+\d{10,15}$`

  predicate IsAsciiDigit(c: char)
  {
    '0' <= c <= '9'
  }

  /** The length of the run of ASCII digits that starts at `i`. */
  function DigitRun(n: string, i: nat): (k: nat)
    requires i <= |n|
    decreases |n| - i
    ensures i + k <= |n|
    ensures forall j :: i <= j < i + k ==> IsAsciiDigit(n[j])
    ensures i + k < |n| ==> !IsAsciiDigit(n[i + k])
  {
    if i < |n| && IsAsciiDigit(n[i]) then 1 + DigitRun(n, i + 1) else 0
  }

  /** Where `$` matches: at the end of the text, and, in Python's `re`, also just
      before a newline that ends the text. */
  predicate DollarAt(n: string, p: nat, beforeFinalNewline: bool)
  {
    p == |n| || (beforeFinalNewline && p + 1 == |n| && n[p] == '\n')
  }

  /** `re.match(r"^\+\d{10,15}$", n)`: a `+`, then a run of 10 to 15 digits after
      which `$` matches. */
  predicate PatternMatches(n: string, beforeFinalNewline: bool)
  {
    |n| > 0 && n[0] == '+' && exists k :: 10 <= k <= 15 && DigitsThenDollar(n, k, beforeFinalNewline)
  }

  /** `\d{10,15}$` can match `k` digits after the `+`. */
  predicate DigitsThenDollar(n: string, k: nat, beforeFinalNewline: bool)
    requires |n| > 0
  {
    10 <= k <= 15 && k <= DigitRun(n, 1) && DollarAt(n, 1 + k, beforeFinalNewline)
  }

  /** A `+` followed by 10 to 15 ASCII digits and nothing else. */
  predicate PlusAndDigits(n: string)
  {
    11 <= |n| <= 16 && n[0] == '+' && forall i :: 1 <= i < |n| ==> IsAsciiDigit(n[i])
  }

  lemma DigitRunWhole(n: string)
    requires |n| > 0
    requires forall i :: 1 <= i < |n| ==> IsAsciiDigit(n[i])
    ensures DigitRun(n, 1) == |n| - 1
  {
    var k := DigitRun(n, 1);
  }

  /** Without the newline allowance the pattern accepts exactly a `+` and 10 to
      15 digits. */
  lemma PatternExact(n: string)
    ensures PatternMatches(n, false) <==> PlusAndDigits(n)
  {
    if PlusAndDigits(n) {
      DigitRunWhole(n);
      assert DigitsThenDollar(n, |n| - 1, false);
    }
    if PatternMatches(n, false) {
      var k :| 10 <= k <= 15 && DigitsThenDollar(n, k, false);
      assert 1 + k == |n|;
    }
  }

  /** With Python's `$`, a trailing newline after a valid number is accepted too. */
  lemma PatternNewline(n: string)
    ensures PatternMatches(n, true) <==>
              PlusAndDigits(n) || (|n| > 0 && n[|n| - 1] == '\n' && PlusAndDigits(n[..|n| - 1]))
  {
    if PlusAndDigits(n) {
      DigitRunWhole(n);
      assert DigitsThenDollar(n, |n| - 1, true);
    } else if |n| > 0 && n[|n| - 1] == '\n' && PlusAndDigits(n[..|n| - 1]) {
      var m := n[..|n| - 1];
      DigitRunWhole(m);
      DigitRunPrefix(n, 1, |m|);
      assert DigitsThenDollar(n, |m| - 1, true);
    }
    if PatternMatches(n, true) {
      var k :| 10 <= k <= 15 && DigitsThenDollar(n, k, true);
      if 1 + k < |n| {
        var m := n[..|n| - 1];
        assert |m| == 1 + k;
        assert forall i :: 1 <= i < |m| ==> m[i] == n[i];
        assert PlusAndDigits(m);
      }
    }
  }

  /** `validate_phone_number`, with `$` matching only at the true end. */
  function Validate(s: string): (r: bool)
    ensures r <==> PlusAndDigits(Normalize(s))
    ensures r ==> 11 <= |Normalize(s)| <= 16 && Normalize(s)[0] == '+'
  {
    PatternExact(Normalize(s));
    PatternMatches(Normalize(s), false)
  }

  /** `validate_phone_number` as written: Python's `$` also accepts a text that
      ends in a newline. */
  function ValidateAsWritten(s: string): (r: bool)
    ensures r <==> PlusAndDigits(Normalize(s)) ||
                   (|Normalize(s)| > 0 && Normalize(s)[|Normalize(s)| - 1] == '\n' &&
                    PlusAndDigits(Normalize(s)[..|Normalize(s)| - 1]))
  {
    PatternNewline(Normalize(s));
    PatternMatches(Normalize(s), true)
  }

  /** A digit run measured in a text agrees with the run in its prefix, when the
      character after the prefix is not a digit. */
  lemma {:induction false} DigitRunPrefix(n: string, i: nat, m: nat)
    requires i <= m < |n| && !IsAsciiDigit(n[m])
    ensures DigitRun(n, i) == DigitRun(n[..m], i)
    decreases m - i
  {
    if i < m {
      assert n[..m][i] == n[i];
      DigitRunPrefix(n, i + 1, m);
    }
  }

  /** The normal form of a number followed by a newline and a dash keeps the
      newline: the strip stops at the dash, which is deleted afterwards. */
  lemma NormalizeNewlineDash(d: string)
    requires |d| > 0 && !IsSpace(d[0]) && ' ' !in d && '-' !in d
    ensures Normalize(d + "\n-") == d + "\n"
  {
    var n := d + "\n";
    var s := n + "-";
    assert s[0] == d[0];
    assert LStrip(s) == s;
    assert RStrip(s) == s;
    assert ' ' !in s by {
      assert s == d + "\n-";
      assert forall i :: 0 <= i < |s| ==> s[i] != ' ' by {
        forall i | 0 <= i < |s| ensures s[i] != ' ' {
          if i < |d| {
            assert s[i] == d[i];
          }
        }
      }
    }
    assert '-' !in n by {
      forall i | 0 <= i < |n| ensures n[i] != '-' {
        if i < |d| {
          assert n[i] == d[i];
        }
      }
    }
    RemoveAbsent(s, ' ');
    RemoveConcat(n, "-", '-');
    RemoveAbsent(n, '-');
    assert Remove("-", '-') == [];
  }

  /** A number followed by a newline and a dash passes the check as written: the
      strip keeps the newline because the dash follows it, the dash is then
      deleted, and `$` matches before the newline that is left at the end. */
  lemma NewlineDashAccepted(d: string)
    requires PlusAndDigits(d)
    ensures ValidateAsWritten(d + "\n-")
    ensures !Validate(d + "\n-")
  {
    var n := d + "\n";
    assert ' ' !in d && '-' !in d by {
      forall i | 0 <= i < |d| ensures d[i] != ' ' && d[i] != '-' {
        if i > 0 {
          assert IsAsciiDigit(d[i]);
        }
      }
    }
    NormalizeNewlineDash(d);
    assert n[..|n| - 1] == d;
    assert !PlusAndDigits(n) by { assert !IsAsciiDigit(n[|n| - 1]); }
  }

  /** The concrete input `"+1234567890\n-"`. */
  lemma NewlineAccepted()
    ensures ValidateAsWritten("+1234567890\n-")
    ensures !Validate("+1234567890\n-")
  {
    var d := "+1234567890";
    assert PlusAndDigits(d);
    assert d + "\n-" == "+1234567890\n-";
    NewlineDashAccepted(d);
  }

  /** Valid numbers keep their answer when spaces or dashes are inserted, for
      inputs whose only whitespace is the space. */
  lemma ValidateIgnoresSeparator(a: string, c: char, b: string)
    requires c == ' ' || c == '-'
    requires SpacesOnly(a + b)
    ensures Validate(a + [c] + b) == Validate(a + b)
  {
    NormalizeIgnoresSeparator(a, c, b);
  }

  // ---------------------------------------------------------------------------
  // Availability

  /** `is_number_available`: the numbers come from a fresh crawl when `refresh`
      is set (its outcome is `fetched`), else from the set given, else from an
      empty set; the number is available when its normal form or the raw text
      is among them. */
  function IsNumberAvailable(phone: string, numbers: Option<set<string>>, refresh: bool,
                             fetched: Outcome<set<string>>): (r: Outcome<bool>)
    ensures !refresh && numbers.None? ==> r == Done(false)
    ensures !refresh && numbers.Some? ==>
              r == Done(Normalize(phone) in numbers.value || phone in numbers.value)
    ensures refresh && fetched.Done? ==>
              r == Done(Normalize(phone) in fetched.value || phone in fetched.value)
    ensures refresh && !fetched.Done? ==> !r.Done?
  {
    var pool :=
      if refresh then fetched
      else if numbers.Some? then Done(numbers.value)
      else Done({});
    match pool
    case Done(ns) => Done(Normalize(phone) in ns || phone in ns)
    case Raised(e) => Raised(e)
    case OutOfFuel => OutOfFuel
  }

  /** The crawl `is_number_available` starts with `refresh`:
      `fetch_all_available_numbers()` with its defaults, that is no URL and
      no token (both taken from the configuration) and pages of 100. */
  function FreshCrawl(cfg: Config.AppConfig, server: Http.Request -> Http.Reply, fuel: nat): Outcome<set<string>>
  {
    ApiClient.CrawlFrom(ApiClient.Rounds(ApiClient.NewCrawler("", "", 100, cfg, server)),
                        ApiClient.ItemNumber, 100, 0, {}, fuel)
  }

  /** `is_number_available` with the crawl it runs: the backend is asked
      only when `refresh` is set, and the answer is `IsNumberAvailable` over
      that crawl's outcome. */
  method CheckNumberAvailable(phone: string, numbers: Option<set<string>>, refresh: bool,
                              cfg: Config.AppConfig, server: Http.Request -> Http.Reply, fuel: nat)
    returns (r: Outcome<bool>)
    ensures r == IsNumberAvailable(phone, numbers, refresh, FreshCrawl(cfg, server, fuel))
    ensures refresh && FreshCrawl(cfg, server, fuel).Done? ==>
              r == Done(Normalize(phone) in FreshCrawl(cfg, server, fuel).value ||
                        phone in FreshCrawl(cfg, server, fuel).value)
  {
    var fetched: Outcome<set<string>> := Done({});
    if refresh {
      fetched := ApiClient.FetchAllAvailableNumbers(ApiClient.NewCrawler("", "", 100, cfg, server), fuel);
    }
    r := IsNumberAvailable(phone, numbers, refresh, fetched);
  }

  /** A number listed in the set, raw or normalised, is reported available. */
  lemma ListedIsAvailable(phone: string, ns: set<string>, fetched: Outcome<set<string>>)
    requires phone in ns || Normalize(phone) in ns
    ensures IsNumberAvailable(phone, Some(ns), false, fetched) == Done(true)
  {
  }

  /** Against a set of normalised numbers, two inputs with the same normal form
      get the same answer. */
  lemma AvailabilityByNormalForm(p: string, q: string, ns: set<string>)
    requires forall x :: x in ns ==> Normalize(x) == x
    requires Normalize(p) == Normalize(q)
    ensures IsNumberAvailable(p, Some(ns), false, OutOfFuel)
         == IsNumberAvailable(q, Some(ns), false, OutOfFuel)
  {
  }
}
