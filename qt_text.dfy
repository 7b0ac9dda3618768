/**
 * The few QString and QFileInfo operations the dialogs rely on, written out on
 * `seq<char>`: `split`, `toInt`, `QString::number`, left padding by `arg`,
 * `completeSuffix` and `baseName`; and a line edit's text and enabled state.
 */
module QtText {

  /** The range of a C++ `int` (32 bits). */
  const IntMin: int := -0x8000_0000
  const IntMax: int := 0x7fff_ffff

  predicate IsInt32(n: int) {
    IntMin <= n <= IntMax
  }

  predicate IsDigit(c: char) {
    '0' <= c <= '9'
  }

  predicate AllDigits(s: string) {
    forall i :: 0 <= i < |s| ==> IsDigit(s[i])
  }

  function DigitValue(c: char): nat
    requires IsDigit(c)
  {
    (c as int - '0' as int) as nat
  }

  function DigitChar(d: nat): char
    requires d < 10
  {
    (d + '0' as int) as char
  }

  /** The decimal value of a string of digits, most significant first. */
  function ParseDigits(s: string): nat
    requires AllDigits(s)
  {
    if s == [] then 0 else ParseDigits(s[..|s| - 1]) * 10 + DigitValue(s[|s| - 1])
  }

  /** The decimal digits of `n`, without leading zeros ("0" for zero). */
  function Digits(n: nat): (s: string)
    ensures |s| > 0 && AllDigits(s)
  {
    if n < 10 then [DigitChar(n)] else Digits(n / 10) + [DigitChar(n % 10)]
  }

  /** `QString::number(n)`: decimal text with a leading '-' for negative numbers. */
  function Number(n: int): string {
    if n < 0 then "-" + Digits(-n) else Digits(n)
  }

  /** The ASCII characters `QChar::isSpace` accepts: tab to carriage return, and space. */
  predicate IsSpace(c: char) {
    c == ' ' || '\t' <= c <= '\r'
  }

  /** `s` without its leading white space. */
  function TrimStart(s: string): (r: string)
    ensures r == [] || !IsSpace(r[0])
  {
    if s != [] && IsSpace(s[0]) then TrimStart(s[1..]) else s
  }

  /** `s` without its trailing white space. */
  function TrimEnd(s: string): (r: string)
    ensures r == [] || !IsSpace(r[|r| - 1])
  {
    if s != [] && IsSpace(s[|s| - 1]) then TrimEnd(s[..|s| - 1]) else s
  }

  /** `QString::trimmed()`: white space removed from both ends. */
  function Trimmed(s: string): string {
    TrimEnd(TrimStart(s))
  }

  /** Dropping trailing white space keeps the first character, if any is left. */
  lemma {:induction false} TrimEndKeepsFirst(s: string)
    ensures TrimEnd(s) == [] || TrimEnd(s)[0] == s[0]
  {
    if s != [] && IsSpace(s[|s| - 1]) {
      TrimEndKeepsFirst(s[..|s| - 1]);
    }
  }

  /** Trimmed text neither starts nor ends with white space. */
  lemma TrimmedEnds(s: string)
    ensures var r := Trimmed(s); r == [] || (!IsSpace(r[0]) && !IsSpace(r[|r| - 1]))
  {
    TrimEndKeepsFirst(TrimStart(s));
  }

  predicate NoDigits(s: string) {
    forall i :: 0 <= i < |s| ==> !IsDigit(s[i])
  }

  /** Dropping leading white space cannot bring in a digit. */
  lemma {:induction false} TrimStartNoDigits(s: string)
    requires NoDigits(s)
    ensures NoDigits(TrimStart(s))
  {
    if s != [] && IsSpace(s[0]) {
      TrimStartNoDigits(s[1..]);
    }
  }

  /** Dropping trailing white space cannot bring in a digit. */
  lemma {:induction false} TrimEndNoDigits(s: string)
    requires NoDigits(s)
    ensures NoDigits(TrimEnd(s))
  {
    if s != [] && IsSpace(s[|s| - 1]) {
      TrimEndNoDigits(s[..|s| - 1]);
    }
  }

  /** Text that neither starts nor ends with white space is its own trimmed form. */
  lemma TrimmedUnchanged(s: string)
    requires s == [] || (!IsSpace(s[0]) && !IsSpace(s[|s| - 1]))
    ensures Trimmed(s) == s
  {
  }

  /**
   * `QString::toInt()` in base 10: white space at either end is ignored; then
   * an optional sign followed by at least one digit; anything else, or a value
   * outside the `int` range, gives 0.
   */
  function ToInt(text: string): (n: int)
    ensures IsInt32(n)
  {
    var s := Trimmed(text);
    var negative := |s| > 0 && s[0] == '-';
    var body := if |s| > 0 && (s[0] == '-' || s[0] == '+') then s[1..] else s;
    if body == [] || !AllDigits(body) then 0
    else
      var v: int := if negative then -(ParseDigits(body) as int) else ParseDigits(body);
      if IsInt32(v) then v else 0
  }

  lemma {:induction false} ParseDigitsOfDigits(n: nat)
    ensures ParseDigits(Digits(n)) == n
  {
    if n >= 10 {
      var s := Digits(n);
      assert s[..|s| - 1] == Digits(n / 10);
      ParseDigitsOfDigits(n / 10);
    }
  }

  /** Reading back what `QString::number` wrote gives the number again. */
  lemma NumberRoundTrip(n: int)
    requires IsInt32(n)
    ensures ToInt(Number(n)) == n
  {
    var s := Number(n);
    TrimmedUnchanged(s);
    if n < 0 {
      var d := Digits(-n);
      assert s == "-" + d && s[0] == '-' && s[1..] == d;
      ParseDigitsOfDigits(-n);
    } else {
      var d := Digits(n);
      assert s == d && IsDigit(d[0]);
      ParseDigitsOfDigits(n);
    }
  }

  /** Leading zeros do not change the value of a string of digits. */
  lemma {:induction false} ParseDigitsLeadingZeros(zeros: string, d: string)
    requires forall i :: 0 <= i < |zeros| ==> zeros[i] == '0'
    requires AllDigits(d)
    ensures AllDigits(zeros + d) && ParseDigits(zeros + d) == ParseDigits(d)
  {
    var s := zeros + d;
    if d == [] {
      assert s == zeros;
      if zeros != [] {
        ParseDigitsLeadingZeros(zeros[..|zeros| - 1], d);
        assert s[..|s| - 1] == zeros[..|zeros| - 1] + d;
      }
    } else {
      assert s[..|s| - 1] == zeros + d[..|d| - 1];
      ParseDigitsLeadingZeros(zeros, d[..|d| - 1]);
    }
  }

  /** A string of digits that starts with a digit reads as its digits' value. */
  lemma ToIntOfDigits(s: string)
    requires s != [] && AllDigits(s) && ParseDigits(s) <= IntMax
    ensures ToInt(s) == ParseDigits(s)
  {
    assert IsDigit(s[0]) && IsDigit(s[|s| - 1]);
    TrimmedUnchanged(s);
  }

  /** A non-negative number written zero-padded to any width reads back as itself. */
  lemma PaddedNumberRoundTrip(n: int, width: nat)
    requires 0 <= n <= IntMax
    ensures ToInt(PadLeft(Number(n), width, '0')) == n
  {
    var d := Digits(n);
    var s := PadLeft(d, width, '0');
    assert s == s[..|s| - |d|] + d;
    ParseDigitsLeadingZeros(s[..|s| - |d|], d);
    ParseDigitsOfDigits(n);
    ToIntOfDigits(s);
  }

  /** Text that is not a number reads as 0. */
  lemma ToIntOfNonNumeric(s: string)
    requires NoDigits(s)
    ensures ToInt(s) == 0
  {
    TrimStartNoDigits(s);
    TrimEndNoDigits(TrimStart(s));
    var t := Trimmed(s);
    if |t| > 1 && (t[0] == '-' || t[0] == '+') {
      assert !IsDigit(t[1..][0]);
    }
  }

  /**
   * `QString::split(sep)` keeping empty parts: the pieces between the
   * separators, always at least one.
   */
  function Split(s: string, sep: char): (parts: seq<string>)
    ensures |parts| >= 1
    ensures forall i :: 0 <= i < |parts| ==> sep !in parts[i]
  {
    if s == [] then [""]
    else if s[0] == sep then [""] + Split(s[1..], sep)
    else
      var rest := Split(s[1..], sep);
      [[s[0]] + rest[0]] + rest[1..]
  }

  /** Joining the pieces of `Split` with the separator gives the text back. */
  function Join(parts: seq<string>, sep: char): string
    requires |parts| >= 1
  {
    if |parts| == 1 then parts[0] else parts[0] + [sep] + Join(parts[1..], sep)
  }

  lemma {:induction false} SplitJoin(s: string, sep: char)
    ensures Join(Split(s, sep), sep) == s
  {
    if s == [] {
    } else if s[0] == sep {
      SplitJoin(s[1..], sep);
      assert Split(s, sep)[1..] == Split(s[1..], sep);
    } else {
      var rest := Split(s[1..], sep);
      SplitJoin(s[1..], sep);
      var parts := Split(s, sep);
      if |rest| == 1 {
        assert parts == [[s[0]] + rest[0]];
      } else {
        assert parts[1..] == rest[1..];
        assert Join(rest, sep) == rest[0] + [sep] + Join(rest[1..], sep);
      }
    }
  }

  /** A text with no separator splits into itself alone. */
  lemma {:induction false} SplitWithoutSeparator(s: string, sep: char)
    requires sep !in s
    ensures Split(s, sep) == [s]
  {
    if s != [] {
      assert s[0] != sep && sep !in s[1..];
      SplitWithoutSeparator(s[1..], sep);
      assert [s[0]] + s[1..] == s;
    }
  }

  /** Splitting `a + sep + b`, where `b` has no separator: the pieces of `a`, then `b`. */
  lemma {:induction false} SplitSnoc(a: string, sep: char, b: string)
    requires sep !in b
    ensures Split(a + [sep] + b, sep) == Split(a, sep) + [b]
  {
    var s := a + [sep] + b;
    if a == [] {
      assert s[0] == sep && s[1..] == b;
      SplitWithoutSeparator(b, sep);
    } else {
      assert s[0] == a[0] && s[1..] == a[1..] + [sep] + b;
      SplitSnoc(a[1..], sep, b);
    }
  }

  /** `s.replace(c, "")`: every occurrence of `c` removed. */
  function RemoveAll(s: string, c: char): (r: string)
    ensures c !in r
    ensures |r| <= |s|
  {
    if s == [] then [] else (if s[0] == c then [] else [s[0]]) + RemoveAll(s[1..], c)
  }

  /**
   * `QString::arg(text, width, fill)` with a positive width: `text` right
   * aligned, filled on the left up to `width` characters.
   */
  function PadLeft(s: string, width: nat, fill: char): (r: string)
    ensures |r| == if |s| < width then width else |s|
    ensures r[|r| - |s|..] == s
    ensures forall i :: 0 <= i < |r| - |s| ==> r[i] == fill
  {
    if |s| < width then seq(width - |s|, _ => fill) + s else s
  }

  /** `s.split(sep).last()`: the text after the last `sep`, or all of `s` when it has none. */
  function LastPart(s: string, sep: char): (r: string)
    ensures sep !in r
  {
    var parts := Split(s, sep);
    parts[|parts| - 1]
  }

  /** The file-name part of a path: everything after the last '/'. */
  function FileName(path: string): string {
    LastPart(path, '/')
  }

  /** Index of the first occurrence of `c` in `s`, or `|s|` when there is none. */
  function FirstIndexOf(s: string, c: char): (i: nat)
    ensures i <= |s|
    ensures c !in s[..i]
    ensures i < |s| ==> s[i] == c
  {
    if s == [] then 0 else if s[0] == c then 0 else 1 + FirstIndexOf(s[1..], c)
  }

  /** The first `c` of `a + [c] + b` is the one after `a` when `a` has none. */
  lemma {:induction false} FirstIndexOfAfter(a: string, c: char, b: string)
    requires c !in a
    ensures FirstIndexOf(a + [c] + b, c) == |a|
  {
    var s := a + [c] + b;
    if a != [] {
      assert s[0] == a[0] && s[1..] == a[1..] + [c] + b;
      FirstIndexOfAfter(a[1..], c, b);
    }
  }

  /** `QFileInfo::path`: the directory part of a path, "." when there is none and "/" for the root. */
  function DirPath(path: string): (r: string)
    ensures r != []
  {
    var parts := Split(path, '/');
    if |parts| == 1 then "."
    else
      var dir := Join(parts[..|parts| - 1], '/');
      if dir == [] then "/" else dir
  }

  /** `QFileInfo::completeSuffix`: the file name after its first '.', or "". */
  function CompleteSuffix(path: string): string {
    var name := FileName(path);
    var dot := FirstIndexOf(name, '.');
    if dot < |name| then name[dot + 1..] else ""
  }

  /** `QFileInfo::baseName`: the file name up to its first '.'. */
  function BaseName(path: string): (r: string)
    ensures '.' !in r
  {
    var name := FileName(path);
    name[..FirstIndexOf(name, '.')]
  }

  /** The file name of `dir/name` is `name` when `name` has no '/'. */
  lemma FileNameOfChild(dir: string, name: string)
    requires '/' !in name
    ensures FileName(dir + "/" + name) == name
  {
    SplitSnoc(dir, '/', name);
    assert dir + "/" + name == dir + ['/'] + name;
  }

  /** The base name of a file named `base.ext` is `base` when `base` has no '.'. */
  lemma BaseNameOfDotted(path: string, base: string, ext: string)
    requires FileName(path) == base + "." + ext && '.' !in base
    ensures BaseName(path) == base
  {
    FirstIndexOfAfter(base, '.', ext);
    assert base + "." + ext == base + ['.'] + ext;
  }

  /** Base name, '.', complete suffix: the file name is split at its first dot. */
  lemma BaseNameAndSuffix(path: string)
    requires '.' in FileName(path)
    ensures FileName(path) == BaseName(path) + "." + CompleteSuffix(path)
  {
    var name := FileName(path);
    var dot := FirstIndexOf(name, '.');
    assert dot < |name|;
    assert name == name[..dot] + [name[dot]] + name[dot + 1..];
  }

  /** A file named `base.ext` in `dir` has the complete suffix `ext` when `base` has no '.'. */
  lemma CompleteSuffixOfDotted(dir: string, base: string, ext: string)
    requires '/' !in base && '/' !in ext && '.' !in base
    ensures CompleteSuffix(dir + "/" + base + "." + ext) == ext
  {
    var name := base + "." + ext;
    assert '/' !in name;
    FileNameOfChild(dir, name);
    assert dir + "/" + base + "." + ext == dir + "/" + name;
    FirstIndexOfAfter(base, '.', ext);
    assert name == base + ['.'] + ext;
  }

  /** A digit string holds no character other than a digit. */
  lemma DigitsExclude(s: string, c: char)
    requires AllDigits(s) && !IsDigit(c)
    ensures c !in s
  {
  }

  /** Removing a character the text does not hold changes nothing. */
  lemma {:induction false} RemoveAllAbsent(s: string, c: char)
    requires c !in s
    ensures RemoveAll(s, c) == s
  {
    if s != [] {
      assert c !in s[1..];
      RemoveAllAbsent(s[1..], c);
      assert [s[0]] + s[1..] == s;
    }
  }

  /** Every character of a piece of `Split(s, sep)` is a character of `s`. */
  lemma {:induction false} SplitPartChars(s: string, sep: char, i: nat, j: nat)
    requires i < |Split(s, sep)| && j < |Split(s, sep)[i]|
    ensures Split(s, sep)[i][j] in s
  {
    if s != [] {
      var rest := Split(s[1..], sep);
      if s[0] == sep {
        SplitPartChars(s[1..], sep, i - 1, j);
      } else if i == 0 {
        if j > 0 {
          SplitPartChars(s[1..], sep, 0, j - 1);
        }
      } else {
        SplitPartChars(s[1..], sep, i, j);
      }
    }
  }

  /** Every character left by `RemoveAll` was in the text. */
  lemma {:induction false} RemoveAllChars(s: string, c: char, j: nat)
    requires j < |RemoveAll(s, c)|
    ensures RemoveAll(s, c)[j] in s
  {
    if s != [] {
      if s[0] == c {
        RemoveAllChars(s[1..], c, j);
      } else if j > 0 {
        RemoveAllChars(s[1..], c, j - 1);
      }
    }
  }

  /** A `QLineEdit` as the dialogs see it: its text and whether it is enabled. */
  datatype LineEdit = LineEdit(text: string, enabled: bool)

  /** The test every completeness check applies to a line edit: enabled but left empty. */
  predicate EnabledEmpty(e: LineEdit) {
    e.enabled && e.text == []
  }
}
