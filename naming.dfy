/**
 * The input form and the names given to a generated image: the
 * "all fields filled" check that gates the Generate action, the
 * download filename `fname_lname_timestamp.png` and the storage key
 * `images/<filename>`.
 */
module Naming {
  import opened Wrappers
  import opened Text

  /** What the form shows: the "All fields are required" warning and whether Generate is clickable. */
  datatype FormView = FormView(showWarning: bool, generateEnabled: bool)

  /** True when a text field is non-empty after `strip()`. */
  predicate Filled(field: string)
  {
    Strip(field) != ""
  }

  /**
   * The form check: the warning is shown and Generate is disabled exactly
   * when one of prompt, first name or last name is empty or only whitespace.
   */
  function Form(prompt: string, fname: string, lname: string): (v: FormView)
    ensures v.generateEnabled <==> HasVisibleChar(prompt) && HasVisibleChar(fname) && HasVisibleChar(lname)
    ensures v.showWarning <==> !v.generateEnabled
  {
    StripEmptyIff(prompt);
    StripEmptyIff(fname);
    StripEmptyIff(lname);
    var allFieldsFilled := Filled(prompt) && Filled(fname) && Filled(lname);
    FormView(!allFieldsFilled, allFieldsFilled)
  }

  // ---------------------------------------------------------------- timestamp

  /** The clock reading `datetime.now()` supplies. */
  datatype DateTime = DateTime(year: int, month: int, day: int, hour: int, minute: int, second: int)

  /** The field ranges of a Python `datetime`. */
  predicate ValidDateTime(t: DateTime)
  {
    && 1 <= t.year <= 9999 && 1 <= t.month <= 12 && 1 <= t.day <= 31
    && 0 <= t.hour <= 23 && 0 <= t.minute <= 59 && 0 <= t.second <= 59
  }

  predicate IsDigit(c: char)
  {
    '0' <= c <= '9'
  }

  function DigitChar(d: int): char
    requires 0 <= d <= 9
  {
    ('0' as int + d) as char
  }

  function DigitValue(c: char): int
    requires IsDigit(c)
  {
    c as int - '0' as int
  }

  /** `n` written in exactly `width` decimal digits, zero-padded on the left. */
  function PadDigits(n: nat, width: nat): (r: string)
    requires n < Pow10(width)
    ensures |r| == width
    ensures forall i :: 0 <= i < |r| ==> IsDigit(r[i])
  {
    if width == 0 then [] else PadDigits(n / 10, width - 1) + [DigitChar(n % 10)]
  }

  function Pow10(k: nat): (p: nat)
    ensures p >= 1
  {
    if k == 0 then 1 else 10 * Pow10(k - 1)
  }

  /** The number written by a string of decimal digits. */
  function DigitsValue(s: string): nat
    requires forall i :: 0 <= i < |s| ==> IsDigit(s[i])
  {
    if s == [] then 0 else 10 * DigitsValue(s[..|s| - 1]) + DigitValue(s[|s| - 1])
  }

  /** Reading back a zero-padded number gives the number. */
  lemma {:induction false} PadDigitsRoundTrip(n: nat, width: nat)
    requires n < Pow10(width)
    ensures DigitsValue(PadDigits(n, width)) == n
  {
    if width > 0 {
      PadDigitsRoundTrip(n / 10, width - 1);
      var r := PadDigits(n, width);
      assert r[..|r| - 1] == PadDigits(n / 10, width - 1);
    }
  }

  /** `strftime("%Y%m%d_%H%M%S")`. */
  function Timestamp(t: DateTime): (s: string)
    requires ValidDateTime(t)
    ensures |s| == 15 && s[8] == '_'
    ensures forall i :: 0 <= i < 15 && i != 8 ==> IsDigit(s[i])
  {
    PadDigits(t.year, 4) + PadDigits(t.month, 2) + PadDigits(t.day, 2) + "_"
      + PadDigits(t.hour, 2) + PadDigits(t.minute, 2) + PadDigits(t.second, 2)
  }

  /** Reads a `%Y%m%d_%H%M%S` stamp back into the clock reading; `None` for any other shape. */
  function ParseTimestamp(s: string): Option<DateTime>
  {
    if |s| != 15 || s[8] != '_' then None
    else if !(forall i :: 0 <= i < 15 && i != 8 ==> IsDigit(s[i])) then None
    else
      Some(DateTime(DigitsValue(s[0..4]), DigitsValue(s[4..6]), DigitsValue(s[6..8]),
                    DigitsValue(s[9..11]), DigitsValue(s[11..13]), DigitsValue(s[13..15])))
  }

  /** The stamp in a file name determines the clock reading it was made from. */
  lemma TimestampRoundTrip(t: DateTime)
    requires ValidDateTime(t)
    ensures ParseTimestamp(Timestamp(t)) == Some(t)
  {
    var s := Timestamp(t);
    PadDigitsRoundTrip(t.year, 4);
    PadDigitsRoundTrip(t.month, 2);
    PadDigitsRoundTrip(t.day, 2);
    PadDigitsRoundTrip(t.hour, 2);
    PadDigitsRoundTrip(t.minute, 2);
    PadDigitsRoundTrip(t.second, 2);
    assert s[0..4] == PadDigits(t.year, 4);
    assert s[4..6] == PadDigits(t.month, 2);
    assert s[6..8] == PadDigits(t.day, 2);
    assert s[9..11] == PadDigits(t.hour, 2);
    assert s[11..13] == PadDigits(t.minute, 2);
    assert s[13..15] == PadDigits(t.second, 2);
  }

  // ---------------------------------------------------------------- file name and key

  /** The download file name `f"{fname}_{lname}_{timestamp}.png"`, with the names as typed. */
  function DownloadFilename(fname: string, lname: string, t: DateTime): string
    requires ValidDateTime(t)
  {
    fname + "_" + lname + "_" + Timestamp(t) + ".png"
  }

  /** The key the Save action writes to: `images/` followed by the file name. */
  function StorageKey(filename: string): string
  {
    "images/" + filename
  }

  /**
   * The file name splits back into its parts: it ends in `.png`, the 15
   * characters before that are the stamp of `t`, and what precedes the
   * stamp's underscore is `fname + "_" + lname`, untrimmed.
   */
  lemma DownloadFilenameParts(fname: string, lname: string, t: DateTime)
    requires ValidDateTime(t)
    ensures var f := DownloadFilename(fname, lname, t);
      && |f| == |fname| + |lname| + 21
      && EndsWith(f, ".png")
      && f[..|f| - 20] == fname + "_" + lname
      && f[|f| - 20] == '_'
      && ParseTimestamp(f[|f| - 19..|f| - 4]) == Some(t)
  {
    var f := DownloadFilename(fname, lname, t);
    TimestampRoundTrip(t);
    assert f[|f| - 19..|f| - 4] == Timestamp(t);
    assert f[..|f| - 20] == fname + "_" + lname;
  }

  /** No `/` enters the file name except through the names typed in. */
  lemma FilenameSlashFree(fname: string, lname: string, t: DateTime)
    requires ValidDateTime(t)
    requires '/' !in fname && '/' !in lname
    ensures '/' !in DownloadFilename(fname, lname, t)
  {
  }

  /** A key ending in `.png` keeps ending in `.png` once lower-cased. */
  lemma PngKeyLowered(stem: string)
    ensures EndsWith(Lower(stem + ".png"), ".png")
  {
  }

  /**
   * A saved image is one the gallery lists (its key ends in `.png`), and the
   * gallery captions it with its file name, provided neither name holds a `/`.
   */
  lemma SavedKeyShownByGallery(fname: string, lname: string, t: DateTime)
    requires ValidDateTime(t)
    requires '/' !in fname && '/' !in lname
    ensures var key := StorageKey(DownloadFilename(fname, lname, t));
      && EndsWith(Lower(key), ".png")
      && key[..7] == "images/"
      && AfterLastSlash(key) == DownloadFilename(fname, lname, t)
  {
    var f := DownloadFilename(fname, lname, t);
    FilenameSlashFree(fname, lname, t);
    assert StorageKey(f) == "images" + "/" + f;
    AfterLastSlashOfPath("images", f);
    assert StorageKey(f) == ("images/" + fname + "_" + lname + "_" + Timestamp(t)) + ".png";
    PngKeyLowered("images/" + fname + "_" + lname + "_" + Timestamp(t));
  }

  /**
   * A first or last name holding a `/` puts the saved object under a
   * sub-folder, and the gallery caption is then not the file name.
   */
  lemma SlashInNameChangesCaption(fname: string, lname: string, t: DateTime)
    requires ValidDateTime(t)
    requires '/' in fname || '/' in lname
    ensures AfterLastSlash(StorageKey(DownloadFilename(fname, lname, t))) != DownloadFilename(fname, lname, t)
  {
    var f := DownloadFilename(fname, lname, t);
    if '/' in fname {
      var i :| 0 <= i < |fname| && fname[i] == '/';
      assert f[i] == '/';
    } else {
      var i :| 0 <= i < |lname| && lname[i] == '/';
      assert f[|fname| + 1 + i] == '/';
    }
  }
}
