/** The rotating output-file name of the N-buffer capture engine
    (`generate_audio_filename`): the directory listing is scanned for names
    `AUDIO<n>...`, and the next session writes `/sdcard/AUDIO<max+1>.bin`. */
module Filename {
  import opened Esp

  const Dir: string := "/sdcard"
  const Prefix: string := "AUDIO"
  const Ext: string := ".bin"
  /** Output buffers shorter than this are refused. */
  const MinPathLen: nat := 16

  // ---------------------------------------------------------------------
  // sscanf("%d") and printf("%d") on the characters of a file name
  // ---------------------------------------------------------------------

  /** The characters C's isspace accepts, which "%d" skips before the number. */
  predicate IsSpace(c: char) {
    c == ' ' || c == '\t' || c == '\n' || c == '\U{000B}' || c == '\U{000C}' || c == '\r'
  }

  predicate IsDigit(c: char) { '0' <= c <= '9' }

  predicate AllDigits(d: string) { forall k :: 0 <= k < |d| ==> IsDigit(d[k]) }

  function DigitValue(c: char): nat
    requires IsDigit(c)
  {
    c as int - '0' as int
  }

  function DigitChar(d: nat): (c: char)
    requires d < 10
    ensures IsDigit(c) && DigitValue(c) == d
  {
    ('0' as int + d) as char
  }

  /** s without its leading white space. */
  function SkipSpace(s: string): (r: string)
    ensures |r| <= |s| && r == s[|s| - |r|..]
    ensures |r| > 0 ==> !IsSpace(r[0])
    ensures (forall k :: 0 <= k < |s| ==> IsSpace(s[k])) <==> r == []
  {
    if |s| > 0 && IsSpace(s[0]) then SkipSpace(s[1..]) else s
  }

  /** The number of decimal digits s starts with. */
  function DigitRun(s: string): (n: nat)
    ensures n <= |s| && AllDigits(s[..n])
    ensures n < |s| ==> !IsDigit(s[n])
  {
    if |s| > 0 && IsDigit(s[0]) then 1 + DigitRun(s[1..]) else 0
  }

  /** The value of a string of decimal digits, most significant first. */
  function Value(d: string): nat
    requires AllDigits(d)
  {
    if |d| == 0 then 0 else 10 * Value(d[..|d| - 1]) + DigitValue(d[|d| - 1])
  }

  /** The value "%d" converts at the start of s (white space, an optional sign,
      then every digit that follows), or None when sscanf would not return 1. */
  function ScanInt(s: string): Option<int> {
    var t := SkipSpace(s);
    var signed := |t| > 0 && (t[0] == '-' || t[0] == '+');
    var u := if signed then t[1..] else t;
    var n := DigitRun(u);
    if n == 0 then None
    else if signed && t[0] == '-' then Some(-(Value(u[..n]) as int))
    else Some(Value(u[..n]) as int)
  }

  /** The decimal text printf("%d") gives for a non-negative number. */
  function Show(n: nat): (s: string)
    ensures |s| > 0 && AllDigits(s)
  {
    if n < 10 then [DigitChar(n)] else Show(n / 10) + [DigitChar(n % 10)]
  }

  lemma {:induction false} ShowValue(n: nat)
    ensures Value(Show(n)) == n
  {
    if n >= 10 {
      var s := Show(n);
      assert s[..|s| - 1] == Show(n / 10);
      ShowValue(n / 10);
    }
  }

  lemma {:induction false} DigitRunStops(d: string, rest: string)
    requires AllDigits(d)
    requires |rest| == 0 || !IsDigit(rest[0])
    ensures DigitRun(d + rest) == |d|
  {
    if |d| > 0 {
      assert (d + rest)[1..] == d[1..] + rest;
      DigitRunStops(d[1..], rest);
    }
  }

  /** "%d" reads back exactly what "%d" printed, when no digit follows it. */
  lemma ScanShow(n: nat, rest: string)
    requires |rest| == 0 || !IsDigit(rest[0])
    ensures ScanInt(Show(n) + rest) == Some(n)
  {
    var s := Show(n) + rest;
    assert !IsSpace(s[0]) && s[0] != '-' && s[0] != '+';
    DigitRunStops(Show(n), rest);
    assert s[..|Show(n)|] == Show(n);
    ShowValue(n);
  }

  // ---------------------------------------------------------------------
  // The directory scan
  // ---------------------------------------------------------------------

  /** The index a directory entry contributes: the number right after the
      prefix, if the name starts with the prefix and a number follows. */
  function IndexOf(name: string): Option<int> {
    if |Prefix| <= |name| && name[..|Prefix|] == Prefix then ScanInt(name[|Prefix|..]) else None
  }

  /** One iteration of the scan loop: the running maximum after looking at name. */
  function Step(m: int, name: string): int {
    match IndexOf(name)
    case Some(k) => if k > m then k else m
    case None => m
  }

  /** The running maximum after looking at every name, starting from 0. */
  function MaxIndex(names: seq<string>): (m: int)
    ensures m >= 0
  {
    if |names| == 0 then 0 else Step(MaxIndex(names[..|names| - 1]), names[|names| - 1])
  }

  /** The name of the file the n-th session writes, as a directory entry. */
  function EntryName(n: nat): string { Prefix + Show(n) + Ext }

  /** The full path of the file the n-th session writes. */
  function PathFor(n: nat): string { Dir + "/" + EntryName(n) }

  /** What snprintf leaves in a buffer of maxLen bytes: at most maxLen - 1
      characters before the terminating NUL. */
  function Truncate(s: string, maxLen: nat): (r: string)
    requires maxLen >= 1
    ensures |r| < maxLen && r <= s
    ensures |s| < maxLen ==> r == s
    ensures |s| >= maxLen ==> |r| == maxLen - 1 && r == s[..maxLen - 1]
  {
    if |s| < maxLen then s else s[..maxLen - 1]
  }

  /** A step never lowers the running maximum and reaches the entry's index. */
  lemma StepBounds(m: int, name: string)
    ensures m <= Step(m, name)
    ensures IndexOf(name).Some? ==> IndexOf(name).value <= Step(m, name)
  {
  }

  /** No entry carries an index above MaxIndex. */
  lemma {:induction false} MaxIndexBounds(names: seq<string>, k: nat)
    requires k < |names| && IndexOf(names[k]).Some?
    ensures IndexOf(names[k]).value <= MaxIndex(names)
  {
    var init := names[..|names| - 1];
    StepBounds(MaxIndex(init), names[|names| - 1]);
    if k < |init| {
      assert names[k] == init[k];
      MaxIndexBounds(init, k);
    }
  }

  /** MaxIndex is 0 or the index of some entry. */
  lemma {:induction false} MaxIndexAttained(names: seq<string>)
    ensures MaxIndex(names) == 0 || exists k :: 0 <= k < |names| && IndexOf(names[k]) == Some(MaxIndex(names))
  {
    if |names| > 0 {
      var init := names[..|names| - 1];
      MaxIndexAttained(init);
      if MaxIndex(names) != 0 && MaxIndex(names) == MaxIndex(init) {
        var k :| 0 <= k < |init| && IndexOf(init[k]) == Some(MaxIndex(init));
        assert names[k] == init[k];
      }
    }
  }

  /** The index of a generated entry is the number it was generated from. */
  lemma EntryIndex(n: nat)
    ensures IndexOf(EntryName(n)) == Some(n)
  {
    var name := EntryName(n);
    assert name[..|Prefix|] == Prefix;
    assert name[|Prefix|..] == Show(n) + Ext;
    ScanShow(n, Ext);
  }

  /** Rotation: once the generated file exists in the directory, the next scan
      yields the following index, so no session reuses a file name. */
  lemma NextSessionAdvances(names: seq<string>, n: nat)
    requires n == MaxIndex(names) + 1
    ensures MaxIndex(names + [EntryName(n)]) == n
  {
    EntryIndex(n);
    AppendAbove(names, EntryName(n), n);
  }

  /** A name whose index is above the running maximum sets it. */
  lemma AppendAbove(names: seq<string>, name: string, k: int)
    requires IndexOf(name) == Some(k) && k > MaxIndex(names)
    ensures MaxIndex(names + [name]) == k
  {
    assert (names + [name])[..|names|] == names;
  }

  lemma ShowDigit(d: nat)
    requires d < 10
    ensures Show(d) == [('0' as int + d) as char]
  {
  }

  lemma SmallNames()
    ensures EntryName(1) == "AUDIO1.bin" && EntryName(3) == "AUDIO3.bin"
    ensures PathFor(4) == "/sdcard/AUDIO4.bin"
  {
    ShowDigit(1);
    ShowDigit(3);
    ShowDigit(4);
  }

  /** The directory {AUDIO1.bin, AUDIO3.bin} gives AUDIO4.bin: max + 1, not count + 1. */
  lemma TwoFilesExample()
    ensures MaxIndex(["AUDIO1.bin", "AUDIO3.bin"]) == 3
    ensures PathFor(3 + 1) == "/sdcard/AUDIO4.bin"
  {
    SmallNames();
    var names := [EntryName(1), EntryName(3)];
    EntryIndex(1);
    EntryIndex(3);
    assert names[..1] == [EntryName(1)];
    assert [EntryName(1)][..0] == [];
    assert MaxIndex([EntryName(1)]) == 1;
    assert MaxIndex(names) == 3;
  }

  /** The path the next session writes, as snprintf leaves it in a buffer of
      maxLen bytes: AUDIO1.bin when the directory cannot be read (None),
      otherwise one past the largest index found. */
  function NextPath(dir: Option<seq<string>>, maxLen: nat): string
    requires maxLen >= 1
  {
    Truncate(PathFor(if dir.None? then 1 else MaxIndex(dir.value) + 1), maxLen)
  }

  /** One more entry of the listing is one more step of the scan. */
  lemma MaxIndexExtend(entries: seq<string>, i: nat)
    requires i < |entries|
    ensures MaxIndex(entries[..i + 1]) == Step(MaxIndex(entries[..i]), entries[i])
  {
    assert entries[..i + 1][..i] == entries[..i];
  }

  /** generate_audio_filename: the status it returns and the text it leaves in
      a buffer of maxLen bytes. hasBuffer is false for a NULL buffer; dir is
      the directory listing, or None when the directory cannot be opened. An
      INVALID_ARG call leaves the buffer untouched (the caller cleared it). */
  method GenerateFilename(hasBuffer: bool, maxLen: nat, dir: Option<seq<string>>)
      returns (r: Err, path: string)
    ensures !hasBuffer || maxLen < MinPathLen ==> r == InvalidArg && path == ""
    ensures hasBuffer && maxLen >= MinPathLen ==>
      r == (if dir.None? then NotFound else Ok) && path == NextPath(dir, maxLen)
  {
    if !hasBuffer || maxLen < MinPathLen {
      return InvalidArg, "";
    }
    if dir.None? {
      return NotFound, Truncate(PathFor(1), maxLen);
    }
    var entries := dir.value;
    var maxIndex := 0;
    var i := 0;
    while i < |entries|
      invariant 0 <= i <= |entries|
      invariant maxIndex == MaxIndex(entries[..i])
    {
      MaxIndexExtend(entries, i);
      match IndexOf(entries[i]) {
        case Some(fileIndex) =>
          if fileIndex > maxIndex {
            maxIndex := fileIndex;
          }
        case None =>
      }
      i := i + 1;
    }
    assert entries[..i] == entries;
    return Ok, Truncate(PathFor(maxIndex + 1), maxLen);
  }
}
