/**
  The text formats the updater relies on: separated fields, canonical decimal
  numerals, canonical stable versions, digests and identifiers.
 */
module Text {
  import opened Wrappers

  /* ---------- Separated fields (Go's strings.Split and strings.Join) ---------- */

  /** The fields of `s` between occurrences of `sep`; never empty. */
  function Split(s: string, sep: char): (parts: seq<string>)
    ensures |parts| >= 1
  {
    if s == "" then [""]
    else
      var rest := Split(s[1..], sep);
      if s[0] == sep then [""] + rest else [[s[0]] + rest[0]] + rest[1..]
  }

  function Join(parts: seq<string>, sep: char): string
    requires |parts| >= 1
  {
    if |parts| == 1 then parts[0] else parts[0] + [sep] + Join(parts[1..], sep)
  }

  predicate Free(s: string, c: char) {
    c !in s
  }

  /** Splitting yields separator-free fields, and joining them gives the text back. */
  lemma {:induction false} JoinSplit(s: string, sep: char)
    ensures Join(Split(s, sep), sep) == s
    ensures forall k :: 0 <= k < |Split(s, sep)| ==> Free(Split(s, sep)[k], sep)
  {
    if s != "" {
      JoinSplit(s[1..], sep);
      var rest := Split(s[1..], sep);
      if s[0] == sep {
        assert ([""] + rest)[1..] == rest;
        assert Split(s, sep) == [""] + rest;
        assert Join(Split(s, sep), sep) == "" + [sep] + Join(rest, sep);
      } else {
        var parts := [[s[0]] + rest[0]] + rest[1..];
        assert Split(s, sep) == parts;
        assert parts[1..] == rest[1..];
        if |rest| > 1 {
          assert Join(parts, sep) == [s[0]] + rest[0] + [sep] + Join(rest[1..], sep);
          assert Join(parts, sep) == [s[0]] + (rest[0] + [sep] + Join(rest[1..], sep));
        }
        assert Join(parts, sep) == [s[0]] + Join(rest, sep);
      }
    }
  }

  /** Joining separator-free fields and splitting again gives the fields back. */
  lemma {:induction false} SplitJoin(parts: seq<string>, sep: char)
    requires |parts| >= 1
    requires forall k :: 0 <= k < |parts| ==> Free(parts[k], sep)
    ensures Split(Join(parts, sep), sep) == parts
    decreases |parts|, |parts[0]|
  {
    if parts[0] != "" {
      var shorter := [parts[0][1..]] + parts[1..];
      assert Free(parts[0][1..], sep) by { assert Free(parts[0], sep); }
      assert shorter[1..] == parts[1..];
      SplitJoin(shorter, sep);
      var whole := Join(parts, sep);
      assert whole == [parts[0][0]] + Join(shorter, sep) by {
        assert parts[0] == [parts[0][0]] + parts[0][1..];
        if |parts| > 1 {
          assert whole == parts[0] + ([sep] + Join(parts[1..], sep));
          assert Join(shorter, sep) == parts[0][1..] + [sep] + Join(parts[1..], sep);
          assert Join(shorter, sep) == parts[0][1..] + ([sep] + Join(parts[1..], sep));
        }
      }
      assert whole[1..] == Join(shorter, sep);
      assert whole[0] != sep by { assert Free(parts[0], sep); assert parts[0][0] in parts[0]; }
      assert Split(whole, sep) == [[whole[0]] + shorter[0]] + shorter[1..];
      assert [whole[0]] + shorter[0] == parts[0];
      assert [parts[0]] + parts[1..] == parts;
    } else if |parts| > 1 {
      SplitJoin(parts[1..], sep);
      var whole := Join(parts, sep);
      assert whole == [sep] + Join(parts[1..], sep);
      assert whole[1..] == Join(parts[1..], sep);
      assert Split(whole, sep) == [""] + parts[1..];
    } else {
      assert parts == [""];
    }
  }

  /* ---------- Canonical decimal numerals ---------- */

  predicate Digit(c: char) {
    '0' <= c <= '9'
  }

  /** `0|[1-9][0-9]*` */
  predicate Numeral(s: string) {
    && s != ""
    && (forall k :: 0 <= k < |s| ==> Digit(s[k]))
    && (|s| > 1 ==> s[0] != '0')
  }

  function Value(s: string): nat {
    if s == "" || !Digit(s[|s| - 1]) then 0
    else 10 * Value(s[..|s| - 1]) + (s[|s| - 1] as int - '0' as int)
  }

  function Decimal(n: nat): (s: string)
    ensures s != ""
  {
    var last := ['0' + (n % 10) as char];
    if n < 10 then last else Decimal(n / 10) + last
  }

  lemma {:induction false} ValueDecimal(n: nat)
    ensures Numeral(Decimal(n)) && Value(Decimal(n)) == n
    ensures n > 0 ==> Decimal(n)[0] != '0'
  {
    var last := ['0' + (n % 10) as char];
    assert Digit(last[0]);
    if n < 10 {
      assert Decimal(n) == last;
      assert last[..0] == "";
      assert Value(last) == 10 * Value(last[..|last| - 1]) + n % 10;
    } else {
      ValueDecimal(n / 10);
      var s := Decimal(n / 10) + last;
      assert s[..|s| - 1] == Decimal(n / 10);
      assert s[0] == Decimal(n / 10)[0];
    }
  }

  lemma {:induction false} DecimalValue(s: string)
    requires Numeral(s)
    ensures Decimal(Value(s)) == s
    ensures Value(s) == 0 ==> s == "0"
  {
    var front, c := s[..|s| - 1], s[|s| - 1];
    assert s == front + [c];
    assert Digit(c);
    var d := c as int - '0' as int;
    if front == "" {
      assert Value(front) == 0;
      assert Value(s) == d;
      assert Decimal(d) == [c];
    } else {
      assert front[0] == s[0];
      assert Numeral(front) by {
        forall k | 0 <= k < |front| ensures Digit(front[k]) { assert front[k] == s[k]; }
      }
      DecimalValue(front);
      assert Value(front) > 0;
      assert Value(s) == 10 * Value(front) + d;
      assert Value(s) / 10 == Value(front) && Value(s) % 10 == d;
    }
  }

  /* ---------- Canonical stable versions ---------- */

  datatype Version = Version(major: nat, minor: nat, patch: nat)

  const UINT64_LIMIT: nat := 0x1_0000_0000_0000_0000

  /** Semantic-version order on stable versions. */
  predicate Older(a: Version, b: Version) {
    || a.major < b.major
    || (a.major == b.major && a.minor < b.minor)
    || (a.major == b.major && a.minor == b.minor && a.patch < b.patch)
  }

  predicate Representable(v: Version) {
    v.major < UINT64_LIMIT && v.minor < UINT64_LIMIT && v.patch < UINT64_LIMIT
  }

  function PrintVersion(v: Version): string {
    "v" + Join([Decimal(v.major), Decimal(v.minor), Decimal(v.patch)], '.')
  }

  /** A canonical version text such as v1.0.0, with 64-bit components. */
  function ParseVersion(s: string): Option<Version> {
    if s == "" || s[0] != 'v' then None
    else
      var fields := Split(s[1..], '.');
      if |fields| != 3 || !Numeral(fields[0]) || !Numeral(fields[1]) || !Numeral(fields[2]) then None
      else
        var v := Version(Value(fields[0]), Value(fields[1]), Value(fields[2]));
        if Representable(v) then Some(v) else None
  }

  lemma NumeralFree(s: string, c: char)
    requires Numeral(s) && !Digit(c)
    ensures Free(s, c)
  {
  }

  /** Printing and parsing canonical versions are inverse to each other. */
  lemma VersionTextIsExact(s: string, v: Version)
    ensures ParseVersion(s) == Some(v) <==> Representable(v) && s == PrintVersion(v)
  {
    if ParseVersion(s) == Some(v) {
      var fields := Split(s[1..], '.');
      JoinSplit(s[1..], '.');
      DecimalValue(fields[0]);
      DecimalValue(fields[1]);
      DecimalValue(fields[2]);
      assert fields == [Decimal(v.major), Decimal(v.minor), Decimal(v.patch)];
      assert s == "v" + s[1..];
    }
    if Representable(v) && s == PrintVersion(v) {
      var fields := [Decimal(v.major), Decimal(v.minor), Decimal(v.patch)];
      ValueDecimal(v.major);
      ValueDecimal(v.minor);
      ValueDecimal(v.patch);
      NumeralFree(fields[0], '.');
      NumeralFree(fields[1], '.');
      NumeralFree(fields[2], '.');
      SplitJoin(fields, '.');
      assert s[1..] == Join(fields, '.');
    }
  }

  /** Equal versions have equal texts: comparing texts and comparing versions agree. */
  lemma VersionTextInjective(a: string, b: string)
    requires ParseVersion(a).Some? && ParseVersion(a) == ParseVersion(b)
    ensures a == b
  {
    VersionTextIsExact(a, ParseVersion(a).value);
    VersionTextIsExact(b, ParseVersion(a).value);
  }

  /** Both texts are canonical and the first is the older version. */
  predicate OlderText(a: string, b: string) {
    ParseVersion(a).Some? && ParseVersion(b).Some? && Older(ParseVersion(a).value, ParseVersion(b).value)
  }

  lemma OlderTextIsTotalOrder(a: string, b: string, c: string)
    ensures !OlderText(a, a)
    ensures OlderText(a, b) && OlderText(b, c) ==> OlderText(a, c)
    ensures ParseVersion(a).Some? && ParseVersion(b).Some? ==> OlderText(a, b) || a == b || OlderText(b, a)
  {
    if ParseVersion(a).Some? && ParseVersion(a) == ParseVersion(b) {
      VersionTextInjective(a, b);
    }
  }

  /** A version as one number: major counts most, then minor, then patch. */
  function Weight(v: Version): nat {
    (v.major * UINT64_LIMIT + v.minor) * UINT64_LIMIT + v.patch
  }

  /** Versions are ordered by their major numbers, then their minor numbers, then their patches. */
  lemma OlderTextIsByWeight(a: string, b: string, v: Version, w: Version)
    requires ParseVersion(a) == Some(v) && ParseVersion(b) == Some(w)
    ensures OlderText(a, b) <==> Weight(v) < Weight(w)
  {
    hide ParseVersion;
    VersionTextIsExact(a, v);
    VersionTextIsExact(b, w);
  }

  /* ---------- Digests, identifiers, ordered text ---------- */

  predicate LowerHex(s: string) {
    forall k :: 0 <= k < |s| ==> Digit(s[k]) || 'a' <= s[k] <= 'f'
  }

  /** `[0-9a-f]{64}` */
  predicate HexDigest(s: string) {
    |s| == 64 && LowerHex(s)
  }

  /** `sha256:[0-9a-f]{64}` */
  predicate ImageDigest(s: string) {
    |s| == 71 && s[..7] == "sha256:" && HexDigest(s[7..])
  }

  predicate WordChar(c: char) {
    Digit(c) || 'a' <= c <= 'z' || 'A' <= c <= 'Z' || c == '_' || c == '-'
  }

  /** `job_[A-Za-z0-9_-]{1,128}` */
  predicate JobIdText(s: string) {
    5 <= |s| <= 132 && s[..4] == "job_" && forall k :: 4 <= k < |s| ==> WordChar(s[k])
  }

  /** An image digest is its algorithm's name and 64 digits of lower-case hexadecimal. */
  lemma DigestTextIsExact(s: string)
    ensures ImageDigest(s) <==>
            exists hex: string ::
              |hex| == 64 && (forall c :: c in hex ==> c in "0123456789abcdef") && s == "sha256:" + hex
  {
    if ImageDigest(s) {
      assert s == "sha256:" + s[7..];
    }
    if hex: string :| |hex| == 64 && (forall c :: c in hex ==> c in "0123456789abcdef") && s == "sha256:" + hex {
      assert s[..7] == "sha256:" && s[7..] == hex;
      forall k | 0 <= k < |hex| ensures Digit(hex[k]) || 'a' <= hex[k] <= 'f' {
        assert hex[k] in hex;
      }
    }
  }

  /** A job id is its prefix and one to 128 word characters. */
  lemma JobIdTextIsExact(s: string)
    ensures JobIdText(s) <==>
            exists rest: string :: 1 <= |rest| <= 128 && (forall c :: c in rest ==> WordChar(c)) && s == "job_" + rest
  {
    hide WordChar;
    if JobIdText(s) {
      var rest := s[4..];
      assert s == "job_" + rest;
      forall c | c in rest ensures WordChar(c) {
        var k :| 0 <= k < |rest| && rest[k] == c;
        assert s[k + 4] == c;
      }
    }
    if rest: string :| 1 <= |rest| <= 128 && (forall c :: c in rest ==> WordChar(c)) && s == "job_" + rest {
      assert s[..4] == "job_";
      forall k | 4 <= k < |s| ensures WordChar(s[k]) {
        assert s[k] == rest[k - 4] && rest[k - 4] in rest;
      }
    }
  }

  /** Byte order on text. */
  predicate Before(a: string, b: string) {
    if b == "" then false
    else if a == "" then true
    else if a[0] != b[0] then a[0] < b[0]
    else Before(a[1..], b[1..])
  }

  /** One text comes before another by the first character in which they differ, or as its proper beginning. */
  lemma {:induction false} BeforeByFirstDifference(a: string, b: string)
    ensures Before(a, b) <==>
            exists k :: 0 <= k <= |a| && k < |b| && a[..k] == b[..k] && (k < |a| ==> a[k] < b[k])
    decreases |a|
  {
    if a != "" && b != "" && a[0] == b[0] {
      BeforeByFirstDifference(a[1..], b[1..]);
      if Before(a, b) {
        var s, t := a[1..], b[1..];
        var k :| 0 <= k <= |s| && k < |t| && s[..k] == t[..k] && (k < |s| ==> s[k] < t[k]);
        assert a[..k + 1] == [a[0]] + s[..k] && b[..k + 1] == [b[0]] + t[..k];
      }
      if k :| 0 <= k <= |a| && k < |b| && a[..k] == b[..k] && (k < |a| ==> a[k] < b[k]) {
        assert k > 0;
        assert a[1..][..k - 1] == a[..k][1..] && b[1..][..k - 1] == b[..k][1..];
      }
    } else if Before(a, b) {
      assert a[..0] == b[..0];
    } else if k :| 0 <= k <= |a| && k < |b| && a[..k] == b[..k] && (k < |a| ==> a[k] < b[k]) {
      assert false;
    }
  }

  /** Go's sort.StringsAreSorted. */
  predicate Sorted(names: seq<string>) {
    forall i, k :: 0 <= i < |names| && 0 <= k < |names| && k == i + 1 ==> !Before(names[k], names[i])
  }
}
