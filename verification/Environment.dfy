/**
  The Compose environment file and the image references kept in it: rewriting the image
  line, reading values back, and the text form of references. Texts are
  Unicode; their size is that of their UTF-8 form.
 */
module Environment {
  import opened Wrappers
  import opened Text
  import opened Release
  import opened System

  /** Files above this size are refused. */
  const MAX_FILE: int := 1024 * 1024
  const IMAGE_KEY: string := "MESSAGE_SERVER_IMAGE"

  /* ---------- Image references ---------- */

  /** DirectRelease.ImageRef: a tag, pinned by a digest when there is one. */
  function PrintRef(image: ImageRef): string {
    if image.digest == "" then TaggedRef(image.version) else PinnedRef(image.version, image.digest)
  }

  /** parseAllowedImageRef */
  function ParseRef(value: string): Option<ImageRef> {
    var prefix := REPOSITORY + ":";
    if prefix <= value then ParseBody(value[|prefix|..]) else None
  }

  /** What follows the repository: a version, and a digest if there is one. */
  function ParseBody(body: string): Option<ImageRef> {
    var parts := Split(body, '@');
    if |parts| > 2 || ParseVersion(parts[0]).None? then None
    else if |parts| == 1 then Some(ImageRef(parts[0], ""))
    else if !ImageDigest(parts[1]) then None
    else Some(ImageRef(parts[0], parts[1]))
  }

  /** Characters that versions and digests are made of. */
  predicate PlainChar(c: char) {
    Digit(c) || 'a' <= c <= 'z' || c == '.' || c == ':'
  }

  predicate Plain(s: string) {
    forall k :: 0 <= k < |s| ==> PlainChar(s[k])
  }

  lemma {:induction false} JoinIsPlain(parts: seq<string>, sep: char)
    requires |parts| >= 1 && PlainChar(sep) && forall k :: 0 <= k < |parts| ==> Plain(parts[k])
    ensures Plain(Join(parts, sep))
  {
    if |parts| > 1 {
      JoinIsPlain(parts[1..], sep);
      var joined := Join(parts, sep);
      assert joined == parts[0] + [sep] + Join(parts[1..], sep);
      forall k | 0 <= k < |joined| ensures PlainChar(joined[k]) {
        if k < |parts[0]| {
          assert joined[k] == parts[0][k];
        } else if k > |parts[0]| {
          assert joined[k] == Join(parts[1..], sep)[k - |parts[0]| - 1];
        }
      }
    }
  }

  lemma VersionIsPlain(version: string)
    requires ParseVersion(version).Some?
    ensures Plain(version) && version != ""
  {
    var fields := Split(version[1..], '.');
    JoinSplit(version[1..], '.');
    JoinIsPlain(fields, '.');
    assert version == "v" + version[1..];
  }

  lemma DigestIsPlain(digest: string)
    requires ImageDigest(digest)
    ensures Plain(digest) && digest != ""
  {
    assert digest == digest[..7] + digest[7..];
    assert Plain(digest[..7]);
    forall k | 0 <= k < |digest| ensures PlainChar(digest[k]) {
      if k >= 7 {
        assert digest[k] == digest[7..][k - 7];
      } else {
        assert digest[k] == digest[..7][k];
      }
    }
  }

  /** Printing a reference and parsing it are inverse to each other. */
  lemma RefTextIsExact(value: string, image: ImageRef)
    ensures ParseRef(value) == Some(image) <==> KnownImage(image) && value == PrintRef(image)
  {
    hide ParseVersion, ImageDigest;
    var prefix := REPOSITORY + ":";
    if ParseRef(value) == Some(image) {
      var rest := value[|prefix|..];
      assert value == prefix + rest;
      JoinSplit(rest, '@');
      DigestIsNotEmpty(image.digest);
      RestIsJoined(rest, image, Split(rest, '@'));
    }
    if KnownImage(image) {
      PrintedParses(image);
    }
  }

  lemma PrintedParses(image: ImageRef)
    requires KnownImage(image)
    ensures ParseRef(PrintRef(image)) == Some(image)
  {
    hide ParseBody, KnownImage;
    var prefix := REPOSITORY + ":";
    var body := if image.digest == "" then image.version else image.version + "@" + image.digest;
    PrintedBody(image);
    assert PrintRef(image) == prefix + body;
    assert (prefix + body)[|prefix|..] == body;
  }

  lemma PrintedBody(image: ImageRef)
    requires KnownImage(image)
    ensures ParseBody(if image.digest == "" then image.version else image.version + "@" + image.digest) == Some(image)
  {
    hide ParseVersion, ImageDigest;
    VersionIsPlain(image.version);
    var parts := if image.digest == "" then [image.version] else [image.version, image.digest];
    if image.digest != "" {
      DigestIsPlain(image.digest);
      assert parts[1..] == [image.digest];
    }
    assert forall k :: 0 <= k < |parts| ==> Free(parts[k], '@');
    SplitJoin(parts, '@');
  }

  lemma DigestIsNotEmpty(digest: string)
    ensures ImageDigest(digest) ==> digest != ""
  {
  }

  lemma RestIsJoined(rest: string, image: ImageRef, parts: seq<string>)
    requires 1 <= |parts| <= 2 && Join(parts, '@') == rest && parts[0] == image.version
    requires if |parts| == 1 then image.digest == "" else image.digest == parts[1] && image.digest != ""
    ensures REPOSITORY + ":" + rest == PrintRef(image)
  {
    if |parts| == 2 {
      assert parts[1..] == [image.digest];
      assert Join(parts, '@') == image.version + "@" + image.digest;
      assert REPOSITORY + ":" + (image.version + "@" + image.digest) ==
               REPOSITORY + ":" + image.version + "@" + image.digest;
    }
  }

  /** A printed reference is one line without blanks. */
  lemma RefIsOneLine(image: ImageRef)
    requires KnownImage(image)
    ensures Free(PrintRef(image), '\n') && Free(PrintRef(image), '\r')
    ensures PrintRef(image) != "" && Trimmed(PrintRef(image))
  {
    hide ParseVersion, ImageDigest;
    VersionIsPlain(image.version);
    if image.digest != "" {
      DigestIsPlain(image.digest);
    }
    var s := PrintRef(image);
    assert s[0] == 'd' && s[|s| - 1] ==
             if image.digest == "" then image.version[|image.version| - 1] else image.digest[|image.digest| - 1];
  }

  /** unicode.IsSpace */
  predicate Space(c: char) {
    var n := c as int;
    9 <= n <= 13 || n == 32 || n == 0x85 || n == 0xA0 || n == 0x1680 || 0x2000 <= n <= 0x200A || n == 0x2028 ||
    n == 0x2029 || n == 0x202F || n == 0x205F || n == 0x3000
  }

  /** strings.TrimSpace would change nothing. */
  predicate Trimmed(s: string) {
    s != "" ==> !Space(s[0]) && !Space(s[|s| - 1])
  }

  /* ---------- The file ---------- */

  /** How many bytes the text takes in UTF-8. */
  function Bytes(text: string): nat {
    if text == "" then 0 else Bytes(text[..|text| - 1]) + BytesOf(text[|text| - 1])
  }

  function BytesOf(c: char): nat {
    if c as int < 0x80 then 1 else if c as int < 0x800 then 2 else if c as int < 0x1_0000 then 3 else 4
  }

  /** How many code points UTF-8 can write in so many bytes: seven bits in one, and 5n + 1 in two to four. */
  function Capacity(bytes: nat): nat {
    match bytes
    case 0 => 0
    case 1 => 128
    case 2 => 2048
    case 3 => 65536
    case _ => 2097152
  }

  /** A character takes the fewest bytes that can write it. */
  lemma BytesAreFewest(c: char)
    ensures BytesOf(c) >= 1 && Capacity(BytesOf(c) - 1) <= c as int < Capacity(BytesOf(c))
  {
  }

  /** What follows the prefix on each line that starts with it. */
  function Hits(lines: seq<string>, prefix: string): seq<string> {
    if lines == [] then []
    else if prefix <= lines[0] then [lines[0][|prefix|..]] + Hits(lines[1..], prefix)
    else Hits(lines[1..], prefix)
  }

  /** readEnvironmentValue: the one value of the key, if there is exactly one and it is not blank. */
  function ReadValue(data: string, key: string): Option<string> {
    if Bytes(data) > MAX_FILE || '\r' in data then None
    else
      var hits := Hits(Split(data, '\n'), key + "=");
      if |hits| == 1 && hits[0] != "" && Trimmed(hits[0]) then Some(hits[0]) else None
  }

  function TrimNewline(data: string): string {
    if data != "" && data[|data| - 1] == '\n' then data[..|data| - 1] else data
  }

  function ImagePrefix(): string {
    IMAGE_KEY + "="
  }

  function ImageLine(value: string): string {
    ImagePrefix() + value
  }

  function Replaced(lines: seq<string>, value: string): seq<string> {
    seq(|lines|, k requires 0 <= k < |lines| => if ImagePrefix() <= lines[k] then ImageLine(value) else lines[k])
  }

  /** writeImageEnvironment: the new text of the file, when the old one is acceptable. */
  function Written(data: string, value: string): Option<string> {
    if Bytes(data) > MAX_FILE || '\r' in data then None
    else
      var lines := Split(TrimNewline(data), '\n');
      if |Hits(lines, ImagePrefix())| != 1 then None
      else Some(Join(Replaced(lines, value), '\n') + "\n")
  }

  lemma {:induction false} HitsConcat(a: seq<string>, b: seq<string>, prefix: string)
    ensures Hits(a + b, prefix) == Hits(a, prefix) + Hits(b, prefix)
  {
    if a == [] {
      assert a + b == b;
    } else {
      HitsConcat(a[1..], b, prefix);
      assert (a + b)[1..] == a[1..] + b;
    }
  }

  /** A last line that is empty matches no key. */
  lemma EmptyLineHitsNothing(lines: seq<string>, key: string)
    ensures Hits(lines + [""], key + "=") == Hits(lines, key + "=")
  {
    HitsConcat(lines, [""], key + "=");
    assert Hits([""], key + "=") == [];
  }

  lemma {:induction false} JoinWithNewline(lines: seq<string>, sep: char)
    requires |lines| >= 1
    ensures Join(lines + [""], sep) == Join(lines, sep) + [sep]
  {
    if |lines| == 1 {
      assert (lines + [""])[1..] == [""];
    } else {
      JoinWithNewline(lines[1..], sep);
      assert (lines + [""])[1..] == lines[1..] + [""];
    }
  }

  /** The lines of a file, whether or not its last line ends with a newline. */
  lemma LinesOfFile(data: string, key: string)
    ensures Hits(Split(data, '\n'), key + "=") == Hits(Split(TrimNewline(data), '\n'), key + "=")
  {
    var lines := Split(TrimNewline(data), '\n');
    if TrimNewline(data) != data {
      JoinSplit(TrimNewline(data), '\n');
      JoinWithNewline(lines, '\n');
      assert data == TrimNewline(data) + "\n";
      SplitJoin(lines + [""], '\n');
      EmptyLineHitsNothing(lines, key);
    }
  }

  /** The lines of the rewritten file. */
  lemma LinesOfWritten(data: string, value: string, key: string)
    requires Written(data, value).Some? && Free(value, '\n')
    ensures Hits(Split(Written(data, value).value, '\n'), key + "=") ==
            Hits(Replaced(Split(TrimNewline(data), '\n'), value), key + "=")
  {
    var lines := Split(TrimNewline(data), '\n');
    var replaced := Replaced(lines, value);
    JoinSplit(TrimNewline(data), '\n');
    JoinWithNewline(replaced, '\n');
    forall k | 0 <= k < |replaced + [""]| ensures Free((replaced + [""])[k], '\n') {
    }
    SplitJoin(replaced + [""], '\n');
    EmptyLineHitsNothing(replaced, key);
  }

  /** No line that sets the image also sets another key; a key has no `=` in it. */
  lemma ImageLineSetsOnlyImage(line: string, key: string)
    requires ImagePrefix() <= line && key != IMAGE_KEY && Free(key, '=')
    ensures !(key + "=" <= line)
  {
    var image := ImagePrefix();
    assert line[|IMAGE_KEY|] == image[|IMAGE_KEY|] == '=';
    assert line[..|IMAGE_KEY|] == image[..|IMAGE_KEY|] == IMAGE_KEY;
    if |key| < |IMAGE_KEY| {
      assert line[|key|] == IMAGE_KEY[|key|] && (key + "=")[|key|] == '=';
      assert IMAGE_KEY[|key|] in IMAGE_KEY && '=' !in IMAGE_KEY;
    } else if |key| > |IMAGE_KEY| {
      assert (key + "=")[|IMAGE_KEY|] == key[|IMAGE_KEY|] && key[|IMAGE_KEY|] in key;
    } else {
      assert (key + "=")[..|key|] == key;
    }
  }

  lemma {:induction false} OtherHitsSurvive(lines: seq<string>, value: string, key: string)
    requires key != IMAGE_KEY && Free(key, '=')
    ensures Hits(Replaced(lines, value), key + "=") == Hits(lines, key + "=")
  {
    if lines != [] {
      OtherHitsSurvive(lines[1..], value, key);
      assert Replaced(lines, value)[1..] == Replaced(lines[1..], value);
      if ImagePrefix() <= lines[0] {
        ImageLineSetsOnlyImage(lines[0], key);
        ImageLineSetsOnlyImage(ImageLine(value), key);
      }
    }
  }

  lemma {:induction false} ImageHitsReplaced(lines: seq<string>, value: string)
    ensures var hits := Hits(Replaced(lines, value), ImagePrefix());
            && |hits| == |Hits(lines, ImagePrefix())|
            && forall k :: 0 <= k < |hits| ==> hits[k] == value
  {
    if lines != [] {
      ImageHitsReplaced(lines[1..], value);
      assert Replaced(lines, value)[1..] == Replaced(lines[1..], value);
      assert ImageLine(value)[|ImagePrefix()|..] == value;
    }
  }

  /** The rewritten file contains no carriage return either. */
  lemma WrittenIsUnixText(data: string, value: string)
    requires Written(data, value).Some? && Free(value, '\r')
    ensures '\r' !in Written(data, value).value
  {
    var lines := Split(TrimNewline(data), '\n');
    JoinSplit(TrimNewline(data), '\n');
    FieldsFree(lines, '\n', '\r');
    ReplacedFree(lines, value);
    JoinFree(Replaced(lines, value), '\n', '\r');
  }

  lemma ReplacedFree(lines: seq<string>, value: string)
    requires Free(value, '\r') && forall k :: 0 <= k < |lines| ==> Free(lines[k], '\r')
    ensures forall k :: 0 <= k < |Replaced(lines, value)| ==> Free(Replaced(lines, value)[k], '\r')
  {
    assert Free(ImageLine(value), '\r') by {
      assert Free(ImagePrefix(), '\r');
    }
  }

  lemma {:induction false} FieldsFree(parts: seq<string>, sep: char, c: char)
    requires |parts| >= 1 && Free(Join(parts, sep), c)
    ensures forall k :: 0 <= k < |parts| ==> Free(parts[k], c)
  {
    if |parts| > 1 {
      var whole := Join(parts, sep);
      assert whole == parts[0] + ([sep] + Join(parts[1..], sep));
      assert forall k :: 0 <= k < |parts[0]| ==> whole[k] == parts[0][k];
      assert Free(parts[0], c);
      var tail := Join(parts[1..], sep);
      assert forall k :: 0 <= k < |tail| ==> whole[k + |parts[0]| + 1] == tail[k];
      assert Free(tail, c);
      FieldsFree(parts[1..], sep, c);
      forall k | 0 <= k < |parts| ensures Free(parts[k], c) {
        if k > 0 {
          assert parts[k] == parts[1..][k - 1];
        }
      }
    }
  }

  lemma {:induction false} JoinFree(parts: seq<string>, sep: char, c: char)
    requires |parts| >= 1 && c != sep && forall k :: 0 <= k < |parts| ==> Free(parts[k], c)
    ensures Free(Join(parts, sep), c)
  {
    if |parts| > 1 {
      JoinFree(parts[1..], sep, c);
      assert Free(parts[0], c);
    }
  }

  /**
    After a successful rewrite the image key reads back exactly the reference that was
    written, if and only if the file stayed within the size limit.
   */
  lemma ImageReadsBack(data: string, image: ImageRef)
    requires KnownImage(image) && Written(data, PrintRef(image)).Some?
    ensures var out := Written(data, PrintRef(image)).value;
            && (ReadValue(out, IMAGE_KEY) == Some(PrintRef(image)) <==> Bytes(out) <= MAX_FILE)
            && (Bytes(out) <= MAX_FILE ==> ParseRef(ReadValue(out, IMAGE_KEY).value) == Some(image))
  {
    hide Written, PrintRef, KnownImage, ParseRef, Trimmed;
    var value := PrintRef(image);
    RefIsOneLine(image);
    RefTextIsExact(value, image);
    LinesOfWritten(data, value, IMAGE_KEY);
    OneImageLine(data, value);
    ImageHitsReplaced(Split(TrimNewline(data), '\n'), value);
    WrittenIsUnixText(data, value);
  }

  lemma OneImageLine(data: string, value: string)
    requires Written(data, value).Some?
    ensures |Hits(Split(TrimNewline(data), '\n'), ImagePrefix())| == 1 && Bytes(data) <= MAX_FILE && '\r' !in data
  {
  }

  /** Every other key reads exactly as before. */
  lemma OtherKeysReadAsBefore(data: string, image: ImageRef, key: string)
    requires KnownImage(image) && Written(data, PrintRef(image)).Some?
    requires key != IMAGE_KEY && Free(key, '=')
    requires Bytes(Written(data, PrintRef(image)).value) <= MAX_FILE
    ensures ReadValue(Written(data, PrintRef(image)).value, key) == ReadValue(data, key)
  {
    hide Written, PrintRef, KnownImage, Trimmed;
    var value := PrintRef(image);
    RefIsOneLine(image);
    LinesOfWritten(data, value, key);
    LinesOfFile(data, key);
    OneImageLine(data, value);
    OtherHitsSurvive(Split(TrimNewline(data), '\n'), value, key);
    WrittenIsUnixText(data, value);
  }

  /** The image a file selects, if it selects one. */
  function ImageOf(data: string): Option<ImageRef> {
    if ReadValue(data, IMAGE_KEY).Some? then ParseRef(ReadValue(data, IMAGE_KEY).value) else None
  }

  /** The host's images are the ones in the file and in the texts a crash may leave. */
  ghost predicate Selects(h: Host, text: string, kept: set<string>) {
    && ImageOf(text) == Some(h.image)
    && (forall t :: t in kept ==> ImageOf(t).Some? && ImageOf(t).value in h.kept)
    && (forall i :: i in h.kept ==> exists t :: t in kept && ImageOf(t) == Some(i))
  }

  /** Replacing the file is one image write of the system. */
  lemma WriteIsConfigure(was: string, kept: set<string>, text: string, image: ImageRef)
    requires ImageOf(text) == Some(image)
    ensures forall h :: Selects(h, was, kept) ==>
              && Selects(Configure(h, image, true), text, {text})
              && Selects(Configure(h, image, false), text, kept + {text})
  {
    hide ImageOf;
    forall h | Selects(h, was, kept)
      ensures Selects(Configure(h, image, true), text, {text})
      ensures Selects(Configure(h, image, false), text, kept + {text})
    {
      assert text in {text} && text in kept + {text};
      forall i | i in h.kept + {image} ensures exists t :: t in kept + {text} && ImageOf(t) == Some(i) {
        if i in h.kept {
          var t :| t in kept && ImageOf(t) == Some(i);
          assert t in kept + {text};
        }
      }
    }
  }

  /* ---------- The code's loops ---------- */

  class EnvironmentFile {
    /** No system call fails. */
    const reliable: bool
    /** What the file holds, and every text a crash may leave in it. */
    var text: string
    ghost var kept: set<string>

    constructor (reliable: bool, text: string)
      ensures this.reliable == reliable && this.text == text && kept == {text}
    {
      this.reliable, this.text, kept := reliable, text, {text};
    }

    /** readEnvironmentValue, line by line. */
    method Read(key: string) returns (value: Option<string>)
      ensures value == ReadValue(text, key)
    {
      if Bytes(text) > MAX_FILE || '\r' in text {
        return None;
      }
      var lines, prefix := Split(text, '\n'), key + "=";
      var found, count, k := "", 0, 0;
      while k < |lines|
        invariant k <= |lines| && count == |Hits(lines[..k], prefix)|
        invariant count > 0 ==> found == Hits(lines[..k], prefix)[count - 1]
      {
        HitsConcat(lines[..k], [lines[k]], prefix);
        assert lines[..k + 1] == lines[..k] + [lines[k]];
        if prefix <= lines[k] {
          found := lines[k][|prefix|..];
          count := count + 1;
        }
        k := k + 1;
      }
      assert lines[..k] == lines;
      if count != 1 || !Trimmed(found) || found == "" {
        return None;
      }
      value := Some(found);
    }

    /** The file is replaced by a rename; a crash may still undo it. */
    method Replace(next: string) returns (renamed: bool)
      modifies this
      ensures if renamed then text == next && kept == old(kept) + {next} else text == old(text) && kept == old(kept)
      ensures reliable ==> renamed
    {
      renamed := *;
      if reliable {
        renamed := true;
      }
      if renamed {
        text, kept := next, kept + {next};
      }
    }

    /** The directory is synced, and then no crash undoes the replacement. */
    method SyncDirectory() returns (ok: bool)
      modifies this`kept
      ensures kept == if ok then {text} else old(kept)
      ensures reliable ==> ok
    {
      ok := *;
      if reliable {
        ok := true;
      }
      if ok {
        kept := {text};
      }
    }

    /**
      writeImageEnvironment: the image line is replaced, then the file is. An error after
      the replacement, from syncing the directory, leaves the new text in place, where a
      crash may still undo it.
     */
    method WriteImage(value: string) returns (ok: bool)
      modifies this
      ensures ok ==> Written(old(text), value) == Some(text) && kept == {text}
      ensures !ok ==>
                || (text == old(text) && kept == old(kept))
                || (Written(old(text), value) == Some(text) && kept == old(kept) + {text})
      ensures reliable ==> (ok <==> Written(old(text), value).Some?)
    {
      hide Split, Join, Replaced, Hits, TrimNewline;
      if Bytes(text) > MAX_FILE || '\r' in text {
        return false;
      }
      var lines, replaced := ReplaceImageLine(Split(TrimNewline(text), '\n'), value);
      if replaced != 1 {
        return false;
      }
      var renamed := Replace(Join(lines, '\n') + "\n");
      if !renamed {
        return false;
      }
      ok := SyncDirectory();
    }

    /** The loop over the lines, which rewrites them in place and counts. */
    method ReplaceImageLine(before: seq<string>, value: string) returns (lines: seq<string>, replaced: nat)
      ensures lines == Replaced(before, value) && replaced == |Hits(before, ImagePrefix())| && |lines| == |before|
    {
      hide ImagePrefix, ImageLine;
      lines, replaced := before, 0;
      var k := 0;
      while k < |lines|
        invariant k <= |lines| == |before| && replaced == |Hits(before[..k], ImagePrefix())|
        invariant forall i :: 0 <= i < |before| ==> lines[i] == if i < k then Replaced(before, value)[i] else before[i]
      {
        HitsConcat(before[..k], [before[k]], ImagePrefix());
        assert before[..k + 1] == before[..k] + [before[k]];
        if ImagePrefix() <= lines[k] {
          lines := lines[k := ImageLine(value)];
          replaced := replaced + 1;
        }
        k := k + 1;
      }
      assert before[..k] == before;
    }

    /**
      writeAllowedImage accepts only canonical references of the one repository. Whatever
      happens, the images the file and its kept copy select are as before or as one image
      write of the system leaves them.
     */
    method WriteAllowedImage(value: string) returns (ok: bool)
      modifies this
      ensures ok ==> ParseRef(value).Some? && Written(old(text), value) == Some(text) && kept == {text}
      ensures ok && Bytes(text) <= MAX_FILE ==> ReadValue(text, IMAGE_KEY) == Some(value)
      ensures ParseRef(value).None? ==> !ok && text == old(text) && kept == old(kept)
      ensures !ok ==>
                || (text == old(text) && kept == old(kept))
                || (Written(old(text), value) == Some(text) && kept == old(kept) + {text})
      ensures forall h: Host ::
                Selects(h, old(text), old(kept)) && Bytes(text) <= MAX_FILE && (ok || text != old(text)) ==>
                  Selects(Configure(h, ParseRef(value).value, ok), text, kept)
      ensures reliable ==> (ok <==> ParseRef(value).Some? && Written(old(text), value).Some?)
    {
      hide ParseRef, ReadValue, Written, KnownImage, PrintRef;
      if ParseRef(value).None? {
        return false;
      }
      var image := ParseRef(value).value;
      RefTextIsExact(value, image);
      ok := WriteImage(value);
      if ok || text != old(text) {
        ImageReadsBack(old(text), image);
        if Bytes(text) <= MAX_FILE {
          WriteIsConfigure(old(text), old(kept), text, image);
        }
      }
    }
  }
}
