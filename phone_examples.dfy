/** repair_phone_number on the sample numbers of test_repair_phone_number.py.
    Each lemma walks the computation: the prepared text, its digits, the split and
    the classification. */
module PhoneExamples {
  import opened Records
  import opened Text
  import opened Phone

  lemma LowerUnchanged(s: string)
    requires forall i :: 0 <= i < |s| ==> !IsUpper(s[i])
    ensures Lower(s) == s
  {
  }

  lemma StripUnchanged(s: string)
    requires |s| > 0 && !IsSpace(s[0]) && !IsSpace(s[|s| - 1])
    ensures Strip(s) == s
  {
  }

  lemma NoCountryCode(s: string)
    requires |s| > 0 && s[0] != '+' && s[0] != '('
    ensures StripCountryCode(s) == s
  {
    assert !StartsWith(s, "+1 ") && !StartsWith(s, "+1-") && !StartsWith(s, "(1)");
  }

  /** Lowered text that needs no stripping or country-code removal. */
  lemma PreparedAfterLower(s: string, t: string)
    requires Lower(s) == t
    requires |t| > 0 && !IsSpace(t[0]) && !IsSpace(t[|t| - 1])
    requires t[0] != '+' && t[0] != '('
    ensures PhoneText(s) == t
  {
    StripUnchanged(t);
    NoCountryCode(t);
  }

  /** Text that needs no lowering, stripping or country-code removal is used as it is. */
  lemma Prepared(s: string)
    requires forall i :: 0 <= i < |s| ==> !IsUpper(s[i])
    requires |s| > 0 && !IsSpace(s[0]) && !IsSpace(s[|s| - 1])
    requires s[0] != '+' && s[0] != '('
    ensures PhoneText(s) == s
  {
    LowerUnchanged(s);
    StripUnchanged(s);
    NoCountryCode(s);
  }

  lemma LastIndexIs(s: string, c: char, i: int)
    requires 0 <= i < |s| && s[i] == c
    requires forall j :: i < j < |s| ==> s[j] != c
    ensures LastIndex(s, c) == i
  {
  }

  lemma LastIndexNone(s: string, c: char)
    requires forall j :: 0 <= j < |s| ==> s[j] != c
    ensures LastIndex(s, c) == -1
  {
  }

  lemma {:induction false} NoDigits(s: string)
    requires forall i :: 0 <= i < |s| ==> !IsDigit(s[i])
    ensures Digits(s) == []
  {
    if s != [] {
      NoDigits(s[..|s| - 1]);
    }
  }

  /** Digits of a run of digits, a separator without digits, and the rest. */
  lemma DigitsThrough(a: string, b: string, c: string)
    requires AllDigits(a)
    requires forall i :: 0 <= i < |b| ==> !IsDigit(b[i])
    ensures Digits(a + b + c) == a + Digits(c)
  {
    DigitsAppend(a + b, c);
    DigitsAppend(a, b);
    DigitsOfDigits(a);
    NoDigits(b);
    calc {
      Digits(a + b + c);
      Digits(a + b) + Digits(c);
      Digits(a) + Digits(b) + Digits(c);
      a + [] + Digits(c);
    }
    assert a + [] == a;
  }

  /** The fallback when fewer than eleven digits and no 'x' are found. */
  lemma NoExtension(text: string)
    requires |Digits(text)| <= 10
    requires forall j :: 0 <= j < |text| ==> text[j] != 'x'
    ensures SplitExtension(text) == Split(Digits(text), None)
  {
    LastIndexNone(text, 'x');
  }

  /** Once the split is known, only the classification remains. */
  lemma RepairVia(phone: string, s: Split, r: string)
    requires SplitExtension(PhoneText(phone)) == s
    requires Attach(Classify(phone, s).0, Classify(phone, s).1) == r
    ensures RepairPhone(phone) == r
  {
  }

  lemma ClassifySeven(phone: string, d: string, e: Option<string>)
    requires |d| == 7
    ensures Classify(phone, Split(d, e)) == ("(352) " + d[0..3] + "-" + d[3..7], e)
  {
    assert |Head5(phone)| <= 5;
  }

  lemma ClassifyTen(phone: string, d: string, e: Option<string>)
    requires |d| == 10
    ensures Classify(phone, Split(d, e)) == ("(" + d[0..3] + ") " + d[3..6] + "-" + d[6..10], e)
  {
  }

  lemma ClassifyFive(phone: string, d: string, e: Option<string>)
    requires |d| == 5 && d[0] == '3'
    ensures Classify(phone, Split(d, e)) == ("(352) 273-" + d[1..5], e)
  {
  }

  lemma ClassifyFiveTwo(phone: string, d: string, e: Option<string>)
    requires |d| == 5 && d[0] == '2'
    ensures Classify(phone, Split(d, e)) == ("(352) 392-" + d[1..5], e)
  {
  }

  lemma ClassifyRefused(phone: string, d: string, e: Option<string>)
    requires |d| != 7 && |d| != 10 && |d| != 5
    ensures Classify(phone, Split(d, e)) == ("", None)
  {
  }


  lemma Split27737()
    ensures PhoneText("27737") == "27737"
    ensures SplitExtension("27737") == Split("27737", None)
  {
    Prepared("27737");
    DigitsOfDigits("27737");
    NoExtension("27737");
  }

  lemma Attach392(d: string)
    requires d == "27737"
    ensures Attach("(352) 392-" + d[1..5], None) == "(352) 392-7737"
  {
    assert d[1..5] == "7737";
  }

  /** Five digits led by '2' are a 392 exchange number. */
  lemma Example27737()
    ensures RepairPhone("27737") == "(352) 392-7737"
  {
    Split27737();
    ClassifyFiveTwo("27737", "27737", None);
    Attach392("27737");
    RepairVia("27737", Split("27737", None), "(352) 392-7737");
  }



  lemma Split2Dash7737()
    ensures PhoneText("2-7737") == "2-7737"
    ensures SplitExtension("2-7737") == Split("27737", None)
  {
    Prepared("2-7737");
    DigitsOf2Dash7737();
    NoExtension("2-7737");
  }

  lemma DigitsOf2Dash7737()
    ensures Digits("2-7737") == "27737"
  {
    assert "2-7737" == "2" + "-" + "7737";
    DigitsOfDigits("7737");
    DigitsThrough("2", "-", "7737");
    assert "2" + "7737" == "27737";
  }

  /** The dash is not a digit, and the rest is as for "27737". */
  lemma Example2Dash7737()
    ensures RepairPhone("2-7737") == "(352) 392-7737"
  {
    Split2Dash7737();
    ClassifyFiveTwo("2-7737", "27737", None);
    Attach392("27737");
    RepairVia("2-7737", Split("27737", None), "(352) 392-7737");
  }



  /** Three groups of digits separated by blanks. */
  lemma DigitsOfGroups(a: string, b: string, c: string)
    requires AllDigits(a) && AllDigits(b) && AllDigits(c)
    ensures Digits(a + " " + b + " " + c) == a + b + c
  {
    DigitsAcrossBlank(a + " " + b, c);
    DigitsAcrossBlank(a, b);
    DigitsOfDigits(a);
    DigitsOfDigits(b);
    DigitsOfDigits(c);
  }

  /** A blank between two texts adds no digit. */
  lemma DigitsAcrossBlank(x: string, y: string)
    ensures Digits(x + " " + y) == Digits(x) + Digits(y)
  {
    var blank := " ";
    DigitsAppend(x + blank, y);
    DigitsAppend(x, blank);
    BlankHasNoDigit();
  }

  lemma BlankHasNoDigit()
    ensures Digits(" ") == []
  {
    assert " "[..0] == [];
  }

  lemma DigitsOf3524842999()
    ensures Digits("352 484 2999") == "3524842999"
  {
    DigitsOfGroups("352", "484", "2999");
    assert "352" + " " + "484" + " " + "2999" == "352 484 2999";
    assert "352" + "484" + "2999" == "3524842999";
  }


  lemma Split3524842999()
    ensures PhoneText("352 484 2999") == "352 484 2999"
    ensures SplitExtension("352 484 2999") == Split("3524842999", None)
  {
    Prepared("352 484 2999");
    DigitsOf3524842999();
    NoExtension("352 484 2999");
  }

  lemma Attach3524842999(d: string)
    requires d == "3524842999"
    ensures Attach("(" + d[0..3] + ") " + d[3..6] + "-" + d[6..10], None) == "(352) 484-2999"
  {
    assert d[0..3] == "352" && d[3..6] == "484" && d[6..10] == "2999";
  }

  /** Ten digits with blanks between them. */
  lemma Example3524842999()
    ensures RepairPhone("352 484 2999") == "(352) 484-2999"
  {
    Split3524842999();
    ClassifyTen("352 484 2999", "3524842999", None);
    Attach3524842999("3524842999");
    RepairVia("352 484 2999", Split("3524842999", None), "(352) 484-2999");
  }



  lemma Split3779999()
    ensures PhoneText("377 9999") == "377 9999"
    ensures SplitExtension("377 9999") == Split("3779999", None)
  {
    Prepared("377 9999");
    DigitsOf3779999();
    NoExtension("377 9999");
  }

  lemma DigitsOf3779999()
    ensures Digits("377 9999") == "3779999"
  {
    assert "377 9999" == "377" + " " + "9999";
    DigitsOfDigits("9999");
    DigitsThrough("377", " ", "9999");
    assert "377" + "9999" == "3779999";
  }

  lemma Attach3779999(d: string)
    requires d == "3779999"
    ensures Attach("(352) " + d[0..3] + "-" + d[3..7], None) == "(352) 377-9999"
  {
    assert d[0..3] == "377" && d[3..7] == "9999";
  }

  /** Seven digits are a 352 number. */
  lemma Example3779999()
    ensures RepairPhone("377 9999") == "(352) 377-9999"
  {
    Split3779999();
    ClassifySeven("377 9999", "3779999", None);
    Attach3779999("3779999");
    RepairVia("377 9999", Split("3779999", None), "(352) 377-9999");
  }



  lemma LowerUpperX()
    ensures Lower("3-4882 X 9943") == "3-4882 x 9943"
  {
    var p := "3-4882 X 9943";
    var t := "3-4882 x 9943";
    assert forall i :: 0 <= i < |p| ==> Lower(p)[i] == t[i];
  }

  lemma PreparedUpperX()
    ensures PhoneText("3-4882 X 9943") == "3-4882 x 9943"
  {
    LowerUpperX();
    PreparedAfterLower("3-4882 X 9943", "3-4882 x 9943");
  }

  lemma SplitUpperX()
    ensures SplitExtension("3-4882 x 9943") == Split("34882", Some("9943"))
  {
    var t := "3-4882 x 9943";
    LastIndexIs(t, 'x', 7);
    LastIndexIs(t, ' ', 8);
    assert t[..9] == "3" + "-" + ("4882" + " x " + []);
    assert t[9..] == "9943";
    NoDigits([]);
    DigitsThrough("4882", " x ", []);
    DigitsThrough("3", "-", "4882" + " x " + []);
    DigitsOfDigits("9943");
    assert SplitAt(t, 8) == Split("34882", Some("9943"));
  }

  lemma AttachUpperX()
    ensures Attach("(352) 273-" + "34882"[1..5], Some("9943")) == "(352) 273-4882 ext. 9943"
  {
    assert "34882"[1..5] == "4882";
  }

  /** The upper-case 'X' is lowered, the text after the last blank is the extension,
      and the five digits before it, led by '3', are a 273 exchange number. */
  lemma Example34882X9943()
    ensures RepairPhone("3-4882 X 9943") == "(352) 273-4882 ext. 9943"
  {
    PreparedUpperX();
    SplitUpperX();
    var s := Split("34882", Some("9943"));
    ClassifyFive("3-4882 X 9943", "34882", Some("9943"));
    AttachUpperX();
    RepairVia("3-4882 X 9943", s, "(352) 273-4882 ext. 9943");
  }

  lemma PreparedCountryCode()
    ensures PhoneText("+1 352 388 2888") == "352 388 2888"
  {
    var p := "+1 352 388 2888";
    LowerUnchanged(p);
    StripUnchanged(p);
    CountryCodeRemoved();
  }

  lemma CountryCodeRemoved()
    ensures StripCountryCode("+1 352 388 2888") == "352 388 2888"
  {
    var p := "+1 352 388 2888";
    var t := "352 388 2888";
    assert StartsWith(p, "+1 ") && p[3..] == t;
    assert t[0] == '3';
    NoCountryCode(t);
  }

  lemma DigitsOf3523882888()
    ensures Digits("352 388 2888") == "3523882888"
  {
    DigitsOfGroups("352", "388", "2888");
    assert "352" + " " + "388" + " " + "2888" == "352 388 2888";
    assert "352" + "388" + "2888" == "3523882888";
  }


  lemma AttachCountryCode()
    ensures var d := "3523882888";
      Attach("(" + d[0..3] + ") " + d[3..6] + "-" + d[6..10], None) == "(352) 388-2888"
  {
    var d := "3523882888";
    assert d[0..3] == "352" && d[3..6] == "388" && d[6..10] == "2888";
  }

  lemma SplitCountryCode()
    ensures SplitExtension("352 388 2888") == Split("3523882888", None)
  {
    DigitsOf3523882888();
    NoExtension("352 388 2888");
  }

  /** The country code "+1 " is removed and ten digits remain. */
  lemma ExampleCountryCode()
    ensures RepairPhone("+1 352 388 2888") == "(352) 388-2888"
  {
    var d := "3523882888";
    PreparedCountryCode();
    SplitCountryCode();
    ClassifyTen("+1 352 388 2888", d, None);
    AttachCountryCode();
    RepairVia("+1 352 388 2888", Split(d, None), "(352) 388-2888");
  }

  lemma Split888388()
    ensures PhoneText("888388") == "888388"
    ensures SplitExtension("888388") == Split("888388", None)
  {
    Prepared("888388");
    DigitsOfDigits("888388");
    NoExtension("888388");
  }

  /** Six digits are refused. */
  lemma Example888388()
    ensures RepairPhone("888388") == ""
  {
    Split888388();
    ClassifyRefused("888388", "888388", None);
    RepairVia("888388", Split("888388", None), "");
  }



  lemma SplitExtensionText()
    ensures SplitExtension("272 2822 ext. 2999") == Split("2722822", Some("2999"))
  {
    var p := "272 2822 ext. 2999";
    LastIndexIs(p, 'x', 10);
    LastIndexIs(p, ' ', 13);
    assert p[..14] == "272" + " " + ("2822" + " ext. " + []);
    assert p[14..] == "2999";
    NoDigits([]);
    DigitsThrough("2822", " ext. ", []);
    DigitsThrough("272", " ", "2822" + " ext. " + []);
    DigitsOfDigits("2999");
    assert SplitAt(p, 13) == Split("2722822", Some("2999"));
  }

  lemma AttachExtension()
    ensures var d := "2722822";
      Attach("(352) " + d[0..3] + "-" + d[3..7], Some("2999")) == "(352) 272-2822 ext. 2999"
  {
    var d := "2722822";
    assert d[0..3] == "272" && d[3..7] == "2822";
  }

  /** The extension is read after the last blank; the seven digits before it are a
      352 number. */
  lemma ExampleExtension()
    ensures RepairPhone("272 2822 ext. 2999") == "(352) 272-2822 ext. 2999"
  {
    var p := "272 2822 ext. 2999";
    Prepared(p);
    SplitExtensionText();
    var d := "2722822";
    ClassifySeven(p, d, Some("2999"));
    AttachExtension();
    RepairVia(p, Split(d, Some("2999")), "(352) 272-2822 ext. 2999");
  }

  lemma SplitLetters()
    ensures PhoneText("bd282") == "bd282"
    ensures SplitExtension("bd282") == Split("282", None)
  {
    Prepared("bd282");
    DigitsOfLetters();
    NoExtension("bd282");
  }

  lemma DigitsOfLetters()
    ensures Digits("bd282") == "282"
  {
    assert "bd282" == "bd" + "282";
    DigitsAppend("bd", "282");
    NoDigits("bd");
    DigitsOfDigits("282");
    assert [] + "282" == "282";
  }

  /** Three digits are refused. */
  lemma ExampleLetters()
    ensures RepairPhone("bd282") == ""
  {
    SplitLetters();
    ClassifyRefused("bd282", "282", None);
    RepairVia("bd282", Split("282", None), "");
  }


}
