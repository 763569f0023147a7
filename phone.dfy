/** repair_phone_number: free-text phone numbers turned into "(ddd) ddd-dddd",
    optionally followed by " ext. " and the extension digits, or into "" when no
    confident repair is possible. */
module Phone {
  import opened Records
  import opened Text

  /** The text the digits are read from: lower-cased, stripped, and with one
      leading "+1 ", then "+1-", then "(1)" removed, each tried once in that order. */
  function StripCountryCode(t: string): string
  {
    var t1 := if StartsWith(t, "+1 ") then t[3..] else t;
    var t2 := if StartsWith(t1, "+1-") then t1[3..] else t1;
    if StartsWith(t2, "(1)") then t2[3..] else t2
  }

  function PhoneText(phone: string): string
  {
    StripCountryCode(Strip(Lower(phone)))
  }

  /** The main digits and the extension digits (`None` when no extension was split
      off), read from the prepared text. */
  datatype Split = Split(main: string, extension: Option<string>)

  function SplitAt(text: string, i: int): (r: Split)
    requires 0 <= i < |text|
  {
    Split(Digits(text[..i + 1]), Some(Digits(text[i + 1..])))
  }

  function SplitExtension(text: string): Split
  {
    var digits := Digits(text);
    if |digits| > 10 || LastIndex(text, 'x') > -1 then
      var blank := LastIndex(text, ' ');
      if blank > 0 then SplitAt(text, blank)
      else if LastIndex(text, 'x') > 0 then SplitAt(text, LastIndex(text, 'x'))
      else if |digits| > 10 then Split(digits[..10], Some(digits[10..]))
      else Split(digits, Some([]))
    else Split(digits, None)
  }

  /** `phone[0:5]` of the text as given (before lowering and stripping). */
  function Head5(phone: string): string
  {
    if |phone| <= 5 then phone else phone[..5]
  }

  /** The main number for the split digits, and the extension that survives:
      a refused number drops its extension. */
  function Classify(phone: string, s: Split): (string, Option<string>)
  {
    var d := s.main;
    if |d| == 7 then
      if Head5(phone) == "352392" then ("", None)
      else if Head5(phone) == "352273" then ("", None)
      else ("(352) " + d[0..3] + "-" + d[3..7], s.extension)
    else if |d| == 10 then
      ("(" + d[0..3] + ") " + d[3..6] + "-" + d[6..10], s.extension)
    else if |d| == 5 && d[0] == '2' then ("(352) 392-" + d[1..5], s.extension)
    else if |d| == 5 && d[0] == '3' then ("(352) 273-" + d[1..5], s.extension)
    else ("", None)
  }

  function Attach(main: string, extension: Option<string>): string
  {
    if extension.Some? && |extension.value| > 0 then main + " ext. " + extension.value
    else main
  }

  /** What repair_phone_number returns for `phone`. */
  function RepairPhone(phone: string): string
  {
    var c := Classify(phone, SplitExtension(PhoneText(phone)));
    Attach(c.0, c.1)
  }

  /** "(ddd) ddd-dddd" */
  predicate IsBaseNumber(r: string)
  {
    && |r| == 14
    && r[0] == '(' && AllDigits(r[1..4]) && r[4..6] == ") "
    && AllDigits(r[6..9]) && r[9] == '-' && AllDigits(r[10..14])
  }

  /** "" or "(ddd) ddd-dddd", optionally followed by " ext. " and one or more digits. */
  predicate IsRepairedShape(r: string)
  {
    || r == ""
    || (|r| >= 14 && IsBaseNumber(r[..14])
        && (|r| == 14 || (|r| > 20 && r[14..20] == " ext. " && AllDigits(r[20..]))))
  }

  lemma BaseNumber(a: string, b: string, c: string)
    requires |a| == 3 && |b| == 3 && |c| == 4
    requires AllDigits(a) && AllDigits(b) && AllDigits(c)
    ensures IsBaseNumber("(" + a + ") " + b + "-" + c)
  {
    var r := "(" + a + ") " + b + "-" + c;
    assert r[1..4] == a && r[4..6] == ") " && r[6..9] == b && r[10..14] == c;
  }

  lemma ClassifyShape(phone: string, s: Split)
    requires AllDigits(s.main)
    requires s.extension.Some? ==> AllDigits(s.extension.value)
    ensures Classify(phone, s).0 == "" || IsBaseNumber(Classify(phone, s).0)
    ensures Classify(phone, s).0 == "" ==> Classify(phone, s).1 == None
  {
    var d := s.main;
    if |d| == 7 {
      SevenShape(d);
    } else if |d| == 10 {
      TenShape(d);
    } else if |d| == 5 && d[0] == '2' {
      FiveShape(d, "392", "(352) 392-");
    } else if |d| == 5 && d[0] == '3' {
      FiveShape(d, "273", "(352) 273-");
    }
  }

  lemma SevenShape(d: string)
    requires |d| == 7 && AllDigits(d)
    ensures IsBaseNumber("(352) " + d[0..3] + "-" + d[3..7])
  {
    BaseNumber("352", d[0..3], d[3..7]);
  }

  lemma TenShape(d: string)
    requires |d| == 10 && AllDigits(d)
    ensures IsBaseNumber("(" + d[0..3] + ") " + d[3..6] + "-" + d[6..10])
  {
    BaseNumber(d[0..3], d[3..6], d[6..10]);
  }

  /** The five-digit numbers of the 352 area, written after `prefix`, which names
      the area and the exchange `exchange`. */
  lemma FiveShape(d: string, exchange: string, prefix: string)
    requires |d| == 5 && AllDigits(d) && |exchange| == 3 && AllDigits(exchange)
    requires prefix == "(352) " + exchange + "-"
    ensures IsBaseNumber(prefix + d[1..5])
  {
    BaseNumber("352", exchange, d[1..5]);
    assert prefix + d[1..5] == "(" + "352" + ") " + exchange + "-" + d[1..5];
  }

  lemma SplitDigits(text: string)
    ensures AllDigits(SplitExtension(text).main)
    ensures SplitExtension(text).extension.Some? ==> AllDigits(SplitExtension(text).extension.value)
  {
    var digits := Digits(text);
    if |digits| > 10 {
      assert forall i :: 0 <= i < 10 ==> digits[..10][i] == digits[i];
      assert forall i :: 0 <= i < |digits| - 10 ==> digits[10..][i] == digits[10 + i];
    }
  }

  lemma AttachShape(main: string, extension: Option<string>)
    requires main == "" || IsBaseNumber(main)
    requires main == "" ==> extension == None
    requires extension.Some? ==> AllDigits(extension.value)
    ensures IsRepairedShape(Attach(main, extension))
  {
    var r := Attach(main, extension);
    if main != "" && extension.Some? && |extension.value| > 0 {
      assert r[..14] == main;
      assert r[14..20] == " ext. ";
      assert r[20..] == extension.value;
    } else if main != "" {
      assert r[..14] == r;
    }
  }

  /** repair_phone_number never fails, and what it returns is either "" or a full
      number, optionally followed by " ext. " and at least one digit. */
  lemma RepairShape(phone: string)
    ensures IsRepairedShape(RepairPhone(phone))
  {
    SplitDigits(PhoneText(phone));
    ClassifiedShape(phone, SplitExtension(PhoneText(phone)));
  }

  /** A classified split of digits has the repaired shape. */
  lemma ClassifiedShape(phone: string, s: Split)
    requires AllDigits(s.main)
    requires s.extension.Some? ==> AllDigits(s.extension.value)
    ensures IsRepairedShape(Attach(Classify(phone, s).0, Classify(phone, s).1))
  {
    ClassifyShape(phone, s);
    AttachShape(Classify(phone, s).0, Classify(phone, s).1);
  }

  /** A digit count other than 7, 10, or 5 led by '2' or '3' is refused: the result
      is "" and any extension split off is discarded. */
  lemma RepairRefused(phone: string)
    requires var d := SplitExtension(PhoneText(phone)).main;
      |d| != 7 && |d| != 10 && !(|d| == 5 && (d[0] == '2' || d[0] == '3'))
    ensures RepairPhone(phone) == ""
  {
  }

  /** The two "damaged number" refusals of the 7-digit branch compare a slice of at
      most five characters with six-character literals, so they never apply: every
      7-digit number is repaired into the 352 area, with its extension. */
  lemma {:induction false} SevenDigitsAlwaysRepaired(phone: string)
    requires |SplitExtension(PhoneText(phone)).main| == 7
    ensures var s := SplitExtension(PhoneText(phone));
      RepairPhone(phone)
        == Attach("(352) " + s.main[0..3] + "-" + s.main[3..7], s.extension)
  {
    assert |Head5(phone)| <= 5;
  }

  /** Ten digits keep their own area code. */
  lemma TenDigits(phone: string)
    requires |SplitExtension(PhoneText(phone)).main| == 10
    ensures var s := SplitExtension(PhoneText(phone));
      RepairPhone(phone)
        == Attach("(" + s.main[0..3] + ") " + s.main[3..6] + "-" + s.main[6..10], s.extension)
  {
  }

  /** Where the extension comes from, in order of preference: the text after the
      last blank when that blank is past the first character, else the text after
      the last 'x' past the first character, else the digits past the tenth.  The
      main digits are those of the text up to the split. */
  lemma ExtensionSource(text: string)
    requires |Digits(text)| > 10 || LastIndex(text, 'x') > -1
    ensures var b := LastIndex(text, ' ');
      b > 0 ==>
        SplitExtension(text) == Split(Digits(text[..b + 1]), Some(Digits(text[b + 1..])))
    ensures var b, x := LastIndex(text, ' '), LastIndex(text, 'x');
      b <= 0 && x > 0 ==>
        SplitExtension(text) == Split(Digits(text[..x + 1]), Some(Digits(text[x + 1..])))
    ensures var b, x := LastIndex(text, ' '), LastIndex(text, 'x');
      b <= 0 && x <= 0 && |Digits(text)| > 10 ==>
        SplitExtension(text) == Split(Digits(text)[..10], Some(Digits(text)[10..]))
  {
    var b, x := LastIndex(text, ' '), LastIndex(text, 'x');
    if b > 0 {
      SplitAtBlank(text);
    } else if x > 0 {
      SplitAtX(text);
    } else if |Digits(text)| > 10 {
      SplitPastTen(text);
    }
  }

  lemma SplitAtBlank(text: string)
    requires |Digits(text)| > 10 || LastIndex(text, 'x') > -1
    requires LastIndex(text, ' ') > 0
    ensures SplitExtension(text) == SplitAt(text, LastIndex(text, ' '))
  {
  }

  lemma SplitAtX(text: string)
    requires |Digits(text)| > 10 || LastIndex(text, 'x') > -1
    requires LastIndex(text, ' ') <= 0 && LastIndex(text, 'x') > 0
    ensures SplitExtension(text) == SplitAt(text, LastIndex(text, 'x'))
  {
  }

  lemma SplitPastTen(text: string)
    requires LastIndex(text, ' ') <= 0 && LastIndex(text, 'x') <= 0 && |Digits(text)| > 10
    ensures SplitExtension(text) == Split(Digits(text)[..10], Some(Digits(text)[10..]))
  {
  }

  /** Without more than ten digits and without an 'x', nothing is split off. */
  lemma NoExtensionSplit(text: string)
    ensures SplitExtension(text).extension == None
        <==> |Digits(text)| <= 10 && forall j :: 0 <= j < |text| ==> text[j] != 'x'
  {
  }

  /** Splitting loses no digit: the main digits followed by the extension digits are
      the digits of the whole text. */
  lemma SplitKeepsDigits(text: string)
    ensures var s := SplitExtension(text);
      s.main + (if s.extension.Some? then s.extension.value else []) == Digits(text)
  {
    if |Digits(text)| > 10 || LastIndex(text, 'x') > -1 {
      if LastIndex(text, ' ') > 0 {
        SplitAtKeepsDigits(text, LastIndex(text, ' '));
      } else if LastIndex(text, 'x') > 0 {
        SplitAtKeepsDigits(text, LastIndex(text, 'x'));
      } else if |Digits(text)| > 10 {
        assert Digits(text)[..10] + Digits(text)[10..] == Digits(text);
      } else {
        assert Digits(text) + [] == Digits(text);
      }
    }
  }

  lemma SplitAtKeepsDigits(text: string, i: int)
    requires 0 <= i < |text|
    ensures SplitAt(text, i).main + SplitAt(text, i).extension.value == Digits(text)
  {
    assert text == text[..i + 1] + text[i + 1..];
    DigitsAppend(text[..i + 1], text[i + 1..]);
  }


  /** The loop of lines 63-66 (and its four copies): collect the digits of `s`. */
  method CollectDigits(s: string) returns (digits: string)
    ensures digits == Digits(s)
  {
    digits := [];
    var i := 0;
    while i < |s|
      invariant 0 <= i <= |s|
      invariant digits == Digits(s[..i])
    {
      assert s[..i + 1][..i] == s[..i];
      if IsDigit(s[i]) {
        digits := digits + [s[i]];
      }
      i := i + 1;
    }
    assert s[..|s|] == s;
  }

  /** Lines 67-93: split an extension off the prepared text. */
  method ExtractExtension(text: string) returns (digits: string, extension: Option<string>)
    ensures Split(digits, extension) == SplitExtension(text)
  {
    extension := None;
    digits := CollectDigits(text);
    if |digits| > 10 || LastIndex(text, 'x') > -1 {
      var i := LastIndex(text, ' ');
      if i > 0 {
        var ext := CollectDigits(text[i + 1..]);
        extension := Some(ext);
        digits := CollectDigits(text[..i + 1]);
      } else if LastIndex(text, 'x') > 0 {
        i := LastIndex(text, 'x');
        var ext := CollectDigits(text[i + 1..]);
        extension := Some(ext);
        digits := CollectDigits(text[..i + 1]);
      } else if |digits| > 10 {
        extension := Some(digits[10..]);
        digits := digits[..10];
      } else {
        extension := Some([]);
      }
    }
  }

  /** repair_phone_number, step by step as the source does it. */
  method RepairPhoneNumber(phone: string) returns (updated: string)
    ensures updated == RepairPhone(phone)
    ensures IsRepairedShape(updated)
  {
    var text := Strip(Lower(phone));
    if StartsWith(text, "+1 ") { text := text[3..]; }
    if StartsWith(text, "+1-") { text := text[3..]; }
    if StartsWith(text, "(1)") { text := text[3..]; }
    assert text == PhoneText(phone);
    var digits, extension := ExtractExtension(text);
    updated, extension := ClassifyDigits(phone, digits, extension);
    if extension.Some? && |extension.value| > 0 {
      updated := updated + " ext. " + extension.value;
    }
    RepairShape(phone);
  }

  /** The branches on the number of digits: the number written out, or "" with the
      extension discarded. */
  method ClassifyDigits(phone: string, digits: string, extension: Option<string>)
    returns (updated: string, kept: Option<string>)
    ensures (updated, kept) == Classify(phone, Split(digits, extension))
  {
    kept := extension;
    if |digits| == 7 {
      if Head5(phone) == "352392" {
        updated := "";
        kept := None;
      } else if Head5(phone) == "352273" {
        updated := "";
        kept := None;
      } else {
        updated := "(352) " + digits[0..3] + "-" + digits[3..7];
      }
    } else if |digits| == 10 {
      updated := "(" + digits[0..3] + ") " + digits[3..6] + "-" + digits[6..10];
    } else if |digits| == 5 && digits[0] == '2' {
      updated := "(352) 392-" + digits[1..5];
    } else if |digits| == 5 && digits[0] == '3' {
      updated := "(352) 273-" + digits[1..5];
    } else {
      updated := "";
      kept := None;
    }
  }
}
