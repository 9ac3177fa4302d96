/**
 * `SynthDriver._convertPhoneme`: IPA to SAPI5's US English phone set,
 * through the driver's `IPA_TO_SAPI` table. The stress mark `ˈ` puts a
 * "1" after the translation of the next symbol (or at the end).
 */
module Phonemes {
  import opened Wrappers

  /** The IPA primary stress mark (U+02C8). */
  const STRESS: char := '\U{02C8}'

  /** SAPI5's primary stress marker. */
  const PRIMARY_STRESS: string := "1"

  /** `IPA_TO_SAPI`. */
  const IPA_TO_SAPI: map<char, string> := map['\U{03B8}' := "th", 's' := "s"]

  /** The voice `language` attribute of US English, the only phone set known. */
  const US_ENGLISH: string := "409"

  /** `LookupError("No data for this language")`, or the `KeyError` of a symbol missing from the table. */
  datatype LookupError = NoDataForLanguage | UnknownSymbol(symbol: char)

  /**
   * The phone list built for `ipa` when a stress mark is pending
   * (`outAfter` set) or not, or the `KeyError` of its first unknown symbol.
   */
  function Translate(ipa: string, stressPending: bool): Result<seq<string>, LookupError>
  {
    if ipa == [] then Success(if stressPending then [PRIMARY_STRESS] else [])
    else if ipa[0] == STRESS then Translate(ipa[1..], true)
    else if ipa[0] !in IPA_TO_SAPI then Failure(UnknownSymbol(ipa[0]))
    else Prepend([IPA_TO_SAPI[ipa[0]]] + (if stressPending then [PRIMARY_STRESS] else []), Translate(ipa[1..], false))
  }

  function Prepend(front: seq<string>, r: Result<seq<string>, LookupError>): Result<seq<string>, LookupError>
  {
    match r
    case Success(rest) => Success(front + rest)
    case Failure(e) => Failure(e)
  }

  lemma PrependTwice(a: seq<string>, b: seq<string>, r: Result<seq<string>, LookupError>)
    ensures Prepend(a, Prepend(b, r)) == Prepend(a + b, r)
    ensures Prepend([], r) == r
  {
    if r.Success? {
      assert a + (b + r.value) == (a + b) + r.value;
      assert [] + r.value == r.value;
    }
  }

  /** `" ".join(parts)`. */
  function JoinSpace(parts: seq<string>): string
  {
    if parts == [] then ""
    else if |parts| == 1 then parts[0]
    else parts[0] + " " + JoinSpace(parts[1..])
  }

  /** What `_convertPhoneme(ipa)` returns or raises for a voice whose language is `language`. */
  function Convert(ipa: string, language: string): Result<string, LookupError>
  {
    if language != US_ENGLISH then Failure(NoDataForLanguage)
    else match Translate(ipa, false)
      case Success(phones) => Success(JoinSpace(phones))
      case Failure(e) => Failure(e)
  }

  /** `_convertPhoneme`, with the voice's language attribute as a parameter. */
  method ConvertPhoneme(ipa: string, language: string) returns (r: Result<string, LookupError>)
    ensures r == Convert(ipa, language)
  {
    if language != US_ENGLISH {
      return Failure(NoDataForLanguage);
    }
    var out: seq<string> := [];
    var outAfter := false;
    PrependTwice([], [], Translate(ipa, false));
    for i := 0 to |ipa|
      invariant Translate(ipa, false) == Prepend(out, Translate(ipa[i..], outAfter))
    {
      var ipaChar := ipa[i];
      assert ipa[i..][0] == ipaChar && ipa[i..][1..] == ipa[i + 1..];
      if ipaChar == STRESS {
        outAfter := true;
        continue;
      }
      if ipaChar !in IPA_TO_SAPI {
        return Failure(UnknownSymbol(ipaChar));
      }
      ghost var front := [IPA_TO_SAPI[ipaChar]] + (if outAfter then [PRIMARY_STRESS] else []);
      PrependTwice(out, front, Translate(ipa[i + 1..], false));
      ghost var expected := out + front;
      out := out + [IPA_TO_SAPI[ipaChar]];
      if outAfter {
        out := out + [PRIMARY_STRESS];
        outAfter := false;
      }
      assert out == expected;
    }
    assert Translate(ipa[|ipa|..], outAfter) == Success(if outAfter then [PRIMARY_STRESS] else []);
    ghost var tail := if outAfter then [PRIMARY_STRESS] else [];
    assert Translate(ipa, false) == Success(out + tail);
    if outAfter {
      out := out + [PRIMARY_STRESS];
    } else {
      assert out + tail == out;
    }
    return Success(JoinSpace(out));
  }

  /** The symbols of `ipa` other than stress marks, translated, in order. */
  function Phones(ipa: string): seq<string>
    requires forall i :: 0 <= i < |ipa| ==> ipa[i] == STRESS || ipa[i] in IPA_TO_SAPI
  {
    if ipa == [] then []
    else if ipa[0] == STRESS then Phones(ipa[1..])
    else [IPA_TO_SAPI[ipa[0]]] + Phones(ipa[1..])
  }

  /** `phones` without the stress markers. */
  function Unstressed(phones: seq<string>): seq<string>
  {
    if phones == [] then []
    else if phones[0] == PRIMARY_STRESS then Unstressed(phones[1..])
    else [phones[0]] + Unstressed(phones[1..])
  }

  /** The translation fails exactly when some symbol other than a stress
      mark is missing from the table, and it names the first such symbol. */
  lemma {:induction false} TranslateFailsIff(ipa: string, stressPending: bool)
    ensures Translate(ipa, stressPending).Failure?
        <==> exists i :: 0 <= i < |ipa| && ipa[i] != STRESS && ipa[i] !in IPA_TO_SAPI
    ensures Translate(ipa, stressPending).Failure? ==>
      exists i :: 0 <= i < |ipa| && Translate(ipa, stressPending).error == UnknownSymbol(ipa[i])
        && forall j :: 0 <= j < i ==> ipa[j] == STRESS || ipa[j] in IPA_TO_SAPI
  {
    if ipa != [] {
      var rest := ipa[1..];
      TranslateFailsIff(rest, true);
      TranslateFailsIff(rest, false);
      assert forall i :: 0 < i < |ipa| ==> ipa[i] == rest[i - 1];
      if Translate(ipa, stressPending).Failure? && (ipa[0] == STRESS || ipa[0] in IPA_TO_SAPI) {
        var p := ipa[0] == STRESS;
        var k :| 0 <= k < |rest| && Translate(rest, p).error == UnknownSymbol(rest[k])
          && forall j :: 0 <= j < k ==> rest[j] == STRESS || rest[j] in IPA_TO_SAPI;
        assert Translate(ipa, stressPending).error == UnknownSymbol(ipa[k + 1]);
      }
    }
  }

  /** A successful translation is the table's phones, in order, with stress
      markers in between and nothing else. */
  lemma {:induction false} TranslateKeepsPhones(ipa: string, stressPending: bool, phones: seq<string>)
    requires Translate(ipa, stressPending) == Success(phones)
    ensures forall i :: 0 <= i < |ipa| ==> ipa[i] == STRESS || ipa[i] in IPA_TO_SAPI
    ensures Unstressed(phones) == Phones(ipa)
  {
    if ipa == [] {
    } else if ipa[0] == STRESS {
      TranslateKeepsPhones(ipa[1..], true, phones);
    } else {
      var front := [IPA_TO_SAPI[ipa[0]]] + (if stressPending then [PRIMARY_STRESS] else []);
      var rest := phones[|front|..];
      assert phones == front + rest;
      TranslateKeepsPhones(ipa[1..], false, rest);
      assert (front + rest)[1..] == (if stressPending then [PRIMARY_STRESS] else []) + rest;
      if stressPending {
        assert ([PRIMARY_STRESS] + rest)[1..] == rest;
      }
    }
  }

  /** A stress mark puts "1" right after the next symbol's phone; marks in a
      row count once; a trailing mark puts "1" last. */
  lemma StressFollowsNextSymbol(c: char, rest: string, stressPending: bool)
    requires c in IPA_TO_SAPI
    ensures Translate([STRESS, c] + rest, stressPending)
         == Prepend([IPA_TO_SAPI[c], PRIMARY_STRESS], Translate(rest, false))
    ensures Translate([STRESS, STRESS] + rest, stressPending) == Translate([STRESS] + rest, stressPending)
    ensures Translate([STRESS], stressPending) == Success([PRIMARY_STRESS])
  {
    assert ([STRESS, c] + rest)[1..] == [c] + rest;
    assert ([c] + rest)[1..] == rest;
    assert [IPA_TO_SAPI[c]] + [PRIMARY_STRESS] == [IPA_TO_SAPI[c], PRIMARY_STRESS];
    assert ([STRESS, STRESS] + rest)[1..] == [STRESS] + rest;
  }

  /** Only US English voices get a conversion: `_convertPhoneme("ˈθs")` is
      "th 1 s" for them and raises `LookupError` for any other voice. */
  lemma ConvertExamples(language: string)
    ensures Convert([STRESS, '\U{03B8}', 's'], US_ENGLISH) == Success("th 1 s")
    ensures language != US_ENGLISH ==> Convert([STRESS, '\U{03B8}', 's'], language) == Failure(NoDataForLanguage)
    ensures Convert("k", US_ENGLISH) == Failure(UnknownSymbol('k'))
  {
    assert Translate(['s'], false) == Success(["s"]) by {
      assert ['s'][1..] == [];
      assert [IPA_TO_SAPI['s']] + [] == ["s"];
    }
    assert Translate(['\U{03B8}', 's'], true) == Success(["th", "1", "s"]) by {
      assert ['\U{03B8}', 's'][1..] == ['s'];
      assert [IPA_TO_SAPI['\U{03B8}']] + [PRIMARY_STRESS] == ["th", "1"];
      assert ["th", "1"] + ["s"] == ["th", "1", "s"];
    }
    assert [STRESS, '\U{03B8}', 's'][1..] == ['\U{03B8}', 's'];
    assert JoinSpace(["th", "1", "s"]) == "th 1 s" by {
      assert ["th", "1", "s"][1..] == ["1", "s"];
      assert ["1", "s"][1..] == ["s"];
    }
  }
}
