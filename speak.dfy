/**
 * `SynthDriver.speak`: compiles a speech sequence into one SAPI5 XML string.
 *
 * Speech commands are linear but XML nests, so the driver keeps the tags that
 * should currently be open (`tags`, a dict from tag name to attributes), the
 * tags it has actually written and not yet closed (`openedTags`) and a flag
 * (`tagsChanged`). Before each text item, and once more at the end after
 * clearing `tags`, `outputTags` closes everything open, innermost first, and
 * opens the current tags, but only when the flag is set.
 */
module Speak {
  import opened Wrappers
  import opened Units
  import opened OrderedDict
  import opened Markup
  import opened Phonemes

  /** One item of a speech sequence. */
  datatype SpeechItem =
    | Text(text: string)                           // a str
    | IndexCommand(index: int)
    | CharacterModeCommand(state: bool)
    | BreakCommand(time: int)                      // milliseconds
    | PitchCommand(multiplier: real)
    | VolumeCommand(multiplier: real)
    | RateCommand(multiplier: real)
    | PhonemeCommand(ipa: string, text: string)    // text "" stands for None too
    | OtherCommand                                 // any other SpeechCommand, e.g. LangChangeCommand
    | Unknown                                      // neither a str nor a SpeechCommand

  /** What `speak` reads from the driver: its `_pitch`, and from the SAPI
      voice object its rate, its volume and its voice's language attribute. */
  datatype Driver = Driver(pitch: int, ttsRate: int, ttsVolume: int, voiceLanguage: string)
  {
    /** `self.rate`, that is `_get_rate`. */
    function Rate(): int
    {
      EngineRateToPercent(ttsRate)
    }
  }

  /** The compiler's state: `tags`, `openedTags`, `tagsChanged[0]` and `textList`. */
  datatype State = State(tags: Dict<Attrs>, openTags: seq<string>, changed: bool, out: seq<Token>)

  /** The tag names `speak` uses. */
  const PITCH := "pitch"
  const VOLUME := "volume"
  const RATE := "rate"
  const SPELL := "spell"

  /** The pitch tag for a pitch percent: pitch must always be in the markup. */
  function PitchAttrs(percent: int): Attrs
  {
    [("absmiddle", PercentToPitch(percent))]
  }

  /** `int(percent * multiplier)`: a percent setting scaled by a command's multiplier. */
  function Scale(percent: int, multiplier: real): int
  {
    Truncate(percent as real * multiplier)
  }

  /** The state before the first item. */
  function Initial(d: Driver): (s: State)
    ensures Keys(s.tags) == [PITCH] && Get(s.tags, PITCH) == Some(PitchAttrs(d.pitch))
    ensures s.changed && s.openTags == [] && s.out == []
  {
    State(Set([], PITCH, PitchAttrs(d.pitch)), [], true, [])
  }

  /** `outputTags`. */
  function Flush(s: State): State
  {
    if !s.changed then s
    else State(s.tags, Keys(s.tags), false, s.out + CloseTokens(s.openTags) + OpenTokens(s.tags))
  }

  /** Whether an item is one of the commands that change `tags`. */
  predicate TouchesTags(item: SpeechItem)
  {
    item.CharacterModeCommand? || item.PitchCommand? || item.VolumeCommand? || item.RateCommand?
  }

  /** The body of the loop over the speech sequence, for one item; `textList`
      only ever grows. */
  function Step(s: State, item: SpeechItem, d: Driver): (r: State)
    ensures s.out <= r.out
  {
    match item
    case Text(text) =>
      var f := Flush(s);
      f.(out := f.out + [Chars(Escape(text))])
    case IndexCommand(index) => s.(out := s.out + [Bookmark(index)])
    case CharacterModeCommand(state) =>
      s.(tags := if state then Set(s.tags, SPELL, []) else Delete(s.tags, SPELL), changed := true)
    case BreakCommand(time) => s.(out := s.out + [Silence(time)])
    case PitchCommand(m) =>
      s.(tags := Set(s.tags, PITCH, PitchAttrs(Scale(d.pitch, m))), changed := true)
    case VolumeCommand(m) =>
      s.(tags := if m == 1.0 then Delete(s.tags, VOLUME)
                 else Set(s.tags, VOLUME, [("level", Scale(d.ttsVolume, m))]),
         changed := true)
    case RateCommand(m) =>
      s.(tags := if m == 1.0 then Delete(s.tags, RATE)
                 else Set(s.tags, RATE, [("absspeed", PercentToRate(Scale(d.Rate(), m)))]),
         changed := true)
    case PhonemeCommand(ipa, text) =>
      (match Convert(ipa, d.voiceLanguage)
       case Success(sym) => s.(out := s.out + [Pron(sym, text)])
       case Failure(_) => if text != "" then s.(out := s.out + [Chars(text)]) else s)
    case OtherCommand => s
    case Unknown => s
  }

  /** The state after the items, one by one. */
  function Steps(s: State, items: seq<SpeechItem>, d: Driver): (r: State)
    ensures s.out <= r.out
  {
    if items == [] then s else Step(Steps(s, items[..|items| - 1], d), items[|items| - 1], d)
  }

  /** The whole `textList` of `speak`: the items, then `tags.clear()` and a forced flush. */
  function Compile(items: seq<SpeechItem>, d: Driver): (r: seq<Token>)
    ensures Steps(Initial(d), items, d).out <= r
    ensures forall i :: |Steps(Initial(d), items, d).out| <= i < |r| ==> r[i].Close?
  {
    var s := Steps(Initial(d), items, d);
    Flush(s.(tags := [], changed := true)).out
  }

  /** `outputTags`' closure state, as an object. */
  class TagWriter {
    var textList: seq<Token>
    var tags: Dict<Attrs>
    var openedTags: seq<string>
    var tagsChanged: bool

    function Current(): State
      reads this
    {
      State(tags, openedTags, tagsChanged, textList)
    }

    /** `textList = []`, `tags = {}`, `tagsChanged = [True]`, `openedTags = []`. */
    constructor ()
      ensures Current() == State([], [], true, [])
    {
      textList := [];
      tags := [];
      tagsChanged := true;
      openedTags := [];
    }

    /** `outputTags`. */
    method OutputTags()
      modifies this
      ensures Current() == Flush(old(Current()))
    {
      if !tagsChanged {
        return;
      }
      ghost var start := textList;
      var i := |openedTags|;
      while i > 0
        invariant 0 <= i <= |openedTags|
        invariant openedTags == old(openedTags) && tags == old(tags)
        invariant textList == start + CloseTokens(openedTags[i..])
      {
        CloseTokensStep(openedTags, i);
        assert start + CloseTokens(openedTags[i - 1..])
            == (start + CloseTokens(openedTags[i..])) + [Close(openedTags[i - 1])];
        textList := textList + [Close(openedTags[i - 1])];
        i := i - 1;
      }
      assert openedTags[0..] == openedTags;
      openedTags := [];
      ghost var closed := textList;
      for j := 0 to |tags|
        invariant tags == old(tags)
        invariant textList == closed + OpenTokens(tags[..j])
        invariant openedTags == Keys(tags[..j])
      {
        assert tags[..j + 1] == tags[..j] + [tags[j]];
        OpenTokensSnoc(tags[..j], tags[j]);
        assert closed + OpenTokens(tags[..j + 1])
            == (closed + OpenTokens(tags[..j])) + [Open(tags[j].0, tags[j].1)];
        textList := textList + [Open(tags[j].0, tags[j].1)];
        openedTags := openedTags + [tags[j].0];
      }
      assert tags[..|tags|] == tags;
      tagsChanged := false;
    }

    /** The body of `speak`'s loop for one item. */
    method Feed(item: SpeechItem, d: Driver)
      modifies this
      ensures Current() == Step(old(Current()), item, d)
    {
      match item {
        case Text(t) =>
          OutputTags();
          textList := textList + [Chars(Escape(t))];
        case IndexCommand(index) =>
          textList := textList + [Bookmark(index)];
        case CharacterModeCommand(state) =>
          if state {
            tags := Set(tags, SPELL, []);
          } else {
            tags := Delete(tags, SPELL);
          }
          tagsChanged := true;
        case BreakCommand(time) =>
          textList := textList + [Silence(time)];
        case PitchCommand(m) =>
          tags := Set(tags, PITCH, PitchAttrs(Scale(d.pitch, m)));
          tagsChanged := true;
        case VolumeCommand(m) =>
          if m == 1.0 {
            tags := Delete(tags, VOLUME);
          } else {
            tags := Set(tags, VOLUME, [("level", Scale(d.ttsVolume, m))]);
          }
          tagsChanged := true;
        case RateCommand(m) =>
          if m == 1.0 {
            tags := Delete(tags, RATE);
          } else {
            tags := Set(tags, RATE, [("absspeed", PercentToRate(Scale(d.Rate(), m)))]);
          }
          tagsChanged := true;
        case PhonemeCommand(ipa, fallback) =>
          var converted := ConvertPhoneme(ipa, d.voiceLanguage);
          match converted {
            case Success(sym) =>
              textList := textList + [Pron(sym, fallback)];
            case Failure(_) =>
              if fallback != "" {
                textList := textList + [Chars(fallback)];
              }
          }
        case OtherCommand =>
        case Unknown =>
      }
    }
  }

  lemma CloseTokensStep(openTags: seq<string>, i: int)
    requires 0 < i <= |openTags|
    ensures CloseTokens(openTags[i - 1..]) == CloseTokens(openTags[i..]) + [Close(openTags[i - 1])]
  {
    assert openTags[i - 1..][1..] == openTags[i..];
  }

  lemma OpenTokensSnoc(tags: Dict<Attrs>, entry: (string, Attrs))
    ensures OpenTokens(tags + [entry]) == OpenTokens(tags) + [Open(entry.0, entry.1)]
    ensures Keys(tags + [entry]) == Keys(tags) + [entry.0]
  {
  }

  /** `speak`, up to the joined string it hands to SAPI's `Speak`. */
  method Speak(items: seq<SpeechItem>, d: Driver) returns (text: string)
    ensures text == RenderAll(Compile(items, d))
  {
    var w := new TagWriter();
    w.tags := Set(w.tags, PITCH, PitchAttrs(d.pitch));
    assert w.Current() == Initial(d);
    assert items[..0] == [];
    for i := 0 to |items|
      invariant w.Current() == Steps(Initial(d), items[..i], d)
    {
      assert items[..i + 1][..i] == items[..i];
      w.Feed(items[i], d);
    }
    assert items[..|items|] == items;
    w.tags := [];
    w.tagsChanged := true;
    w.OutputTags();
    text := RenderAll(w.textList);
  }

  /**
   * What holds between items: the output so far leaves exactly `openedTags`
   * open, a clear flag means the open tags are the current tags, and `tags`
   * is a dict.
   */
  ghost predicate Consistent(s: State)
  {
    && Unwind([], s.out) == Some(s.openTags)
    && (!s.changed ==> s.openTags == Keys(s.tags))
    && Distinct(Keys(s.tags))
  }

  /** Writing tokens that are not tags leaves the open tags as they are. */
  lemma AppendNoTags(s: State, more: seq<Token>)
    requires Consistent(s)
    requires forall i :: 0 <= i < |more| ==> !IsTag(more[i])
    ensures Unwind([], s.out + more) == Some(s.openTags)
  {
    UnwindAppend([], s.out, more);
    UnwindNoTags(s.openTags, more);
  }

  /** `outputTags` closes what is open and leaves open exactly the current tags. */
  lemma FlushKeepsConsistent(s: State)
    requires Consistent(s)
    ensures Consistent(Flush(s))
    ensures !Flush(s).changed && Flush(s).tags == s.tags && Flush(s).openTags == Keys(s.tags)
    ensures |s.out| <= |Flush(s).out| && Flush(s).out[..|s.out|] == s.out
    ensures forall i :: |s.out| <= i < |Flush(s).out| ==> IsTag(Flush(s).out[i])
  {
    if s.changed {
      var closes := CloseTokens(s.openTags);
      UnwindAppend([], s.out, closes);
      assert [] + s.openTags == s.openTags;
      UnwindCloses([], s.openTags);
      UnwindAppend([], s.out + closes, OpenTokens(s.tags));
      UnwindOpens([], s.tags);
      assert [] + Keys(s.tags) == Keys(s.tags);
      var r := Flush(s).out;
      forall i | |s.out| <= i < |r|
        ensures IsTag(r[i])
      {
        if i < |s.out| + |closes| {
          assert r[i] == closes[i - |s.out|];
        } else {
          assert r[i] == OpenTokens(s.tags)[i - |s.out| - |closes|];
        }
      }
    }
  }

  /** Every item keeps the invariant, and no item takes the pitch tag away. */
  lemma StepKeepsConsistent(s: State, item: SpeechItem, d: Driver)
    requires Consistent(s)
    ensures Consistent(Step(s, item, d))
    ensures PITCH in Keys(s.tags) ==> PITCH in Keys(Step(s, item, d).tags)
  {
    if TouchesTags(item) {
      TagCommandKeepsConsistent(s, item, d);
    } else {
      WritingKeepsConsistent(s, item, d);
    }
  }

  /** Items that write output keep the invariant and leave `tags` alone. */
  lemma WritingKeepsConsistent(s: State, item: SpeechItem, d: Driver)
    requires Consistent(s) && !TouchesTags(item)
    ensures Consistent(Step(s, item, d)) && Step(s, item, d).tags == s.tags
  {
    match item
    case Text(text) =>
      FlushKeepsConsistent(s);
      AppendNoTags(Flush(s), [Chars(Escape(text))]);
    case IndexCommand(index) => AppendNoTags(s, [Bookmark(index)]);
    case BreakCommand(time) => AppendNoTags(s, [Silence(time)]);
    case PhonemeCommand(ipa, text) =>
      if Convert(ipa, d.voiceLanguage).Success? {
        AppendNoTags(s, [Pron(Convert(ipa, d.voiceLanguage).value, text)]);
      } else if text != "" {
        AppendNoTags(s, [Chars(text)]);
      }
    case OtherCommand =>
    case Unknown =>
  }

  /** Tag commands keep the tags a dict and never drop the pitch tag. */
  lemma TagCommandKeepsConsistent(s: State, item: SpeechItem, d: Driver)
    requires Consistent(s) && TouchesTags(item)
    ensures Consistent(Step(s, item, d))
    ensures PITCH in Keys(s.tags) ==> PITCH in Keys(Step(s, item, d).tags)
  {
    var r := Step(s, item, d);
    assert r.out == s.out && r.openTags == s.openTags && r.changed;
    match item
    case CharacterModeCommand(state) =>
      if state {
        SetKeepsDistinct(s.tags, SPELL, []);
      } else {
        DeleteKeepsDistinct(s.tags, SPELL);
        DeleteKeys(s.tags, SPELL);
      }
    case PitchCommand(m) =>
      SetKeepsDistinct(s.tags, PITCH, PitchAttrs(Scale(d.pitch, m)));
    case VolumeCommand(m) =>
      if m == 1.0 {
        DeleteKeepsDistinct(s.tags, VOLUME);
        DeleteKeys(s.tags, VOLUME);
      } else {
        SetKeepsDistinct(s.tags, VOLUME, [("level", Scale(d.ttsVolume, m))]);
      }
    case RateCommand(m) =>
      if m == 1.0 {
        DeleteKeepsDistinct(s.tags, RATE);
        DeleteKeys(s.tags, RATE);
      } else {
        SetKeepsDistinct(s.tags, RATE, [("absspeed", PercentToRate(Scale(d.Rate(), m)))]);
      }
  }

  /** Along the speech sequence the invariant holds and a pitch tag is always requested. */
  lemma {:induction false} StepsKeepConsistent(items: seq<SpeechItem>, d: Driver)
    ensures Consistent(Steps(Initial(d), items, d))
    ensures PITCH in Keys(Steps(Initial(d), items, d).tags)
  {
    if items == [] {
      assert Keys(Initial(d).tags) == [PITCH];
    } else {
      StepsKeepConsistent(items[..|items| - 1], d);
      StepKeepsConsistent(Steps(Initial(d), items[..|items| - 1], d), items[|items| - 1], d);
    }
  }

  /** The markup is well formed: every opened tag is closed, in exact
      reverse order of opening, and nothing is left open. */
  lemma CompileBalanced(items: seq<SpeechItem>, d: Driver)
    ensures Balanced(Compile(items, d))
  {
    var s := Steps(Initial(d), items, d);
    StepsKeepConsistent(items, d);
    var cleared := s.(tags := [], changed := true);
    FlushKeepsConsistent(cleared);
  }

  /** A text item is written escaped, after only tags, and inside exactly the
      tags currently requested, which always include the pitch tag. */
  lemma TextWrittenInsideCurrentTags(items: seq<SpeechItem>, text: string, d: Driver)
    ensures var s := Steps(Initial(d), items, d);
      var r := Step(s, Text(text), d);
      && |s.out| < |r.out|
      && r.out[..|s.out|] == s.out
      && r.out[|r.out| - 1] == Chars(Escape(text))
      && (forall i :: |s.out| <= i < |r.out| - 1 ==> IsTag(r.out[i]))
      && r.openTags == Keys(s.tags)
      && PITCH in r.openTags
      && !r.changed
  {
    var s := Steps(Initial(d), items, d);
    StepsKeepConsistent(items, d);
    FlushKeepsConsistent(s);
  }

  /** With the flag clear, items that are not tag commands write no tag and
      leave the tag state alone. */
  lemma {:induction false} QuietItemsWriteNoTags(s: State, items: seq<SpeechItem>, d: Driver)
    requires !s.changed
    requires forall i :: 0 <= i < |items| ==> !TouchesTags(items[i])
    ensures var r := Steps(s, items, d);
      && r.tags == s.tags && r.openTags == s.openTags && !r.changed
      && |s.out| <= |r.out| && r.out[..|s.out|] == s.out
      && forall i :: |s.out| <= i < |r.out| ==> !IsTag(r.out[i])
  {
    if items != [] {
      var front := items[..|items| - 1];
      QuietItemsWriteNoTags(s, front, d);
      var p := Steps(s, front, d);
      var r := Step(p, items[|items| - 1], d);
      assert |p.out| <= |r.out| && r.out[..|p.out|] == p.out;
      assert forall i :: |p.out| <= i < |r.out| ==> !IsTag(r.out[i]);
      assert r.out[..|s.out|] == p.out[..|s.out|];
    }
  }

  /** No redundant tag churn: after a text item, more text, bookmarks,
      breaks, phonemes and other commands close and reopen no tag. */
  lemma NoRedundantChurn(s: State, text: string, items: seq<SpeechItem>, d: Driver)
    requires forall i :: 0 <= i < |items| ==> !TouchesTags(items[i])
    ensures var t := Step(s, Text(text), d);
      var r := Steps(t, items, d);
      && |t.out| <= |r.out|
      && forall i :: |t.out| <= i < |r.out| ==> !IsTag(r.out[i])
  {
    QuietItemsWriteNoTags(Step(s, Text(text), d), items, d);
  }

  /** Index and break commands write one self-closing element and change
      neither the tags nor the flag. */
  lemma IndexAndBreakLeaveTags(s: State, item: SpeechItem, d: Driver)
    requires item.IndexCommand? || item.BreakCommand?
    ensures var r := Step(s, item, d);
      && r.tags == s.tags && r.openTags == s.openTags && r.changed == s.changed
      && r.out == s.out + [if item.IndexCommand? then Bookmark(item.index) else Silence(item.time)]
  {
  }

  /** Every tag command sets the flag, even when it changes nothing, and
      writes nothing; a reset (character mode off, volume or rate multiplier
      1) deletes its tag and is a no-op on an absent tag. */
  lemma TagCommandsOnlyRequest(s: State, item: SpeechItem, d: Driver)
    requires TouchesTags(item)
    ensures var r := Step(s, item, d);
      && r.changed && r.out == s.out && r.openTags == s.openTags
    ensures item == CharacterModeCommand(false) ==> Step(s, item, d).tags == Delete(s.tags, SPELL)
    ensures item == VolumeCommand(1.0) ==> Step(s, item, d).tags == Delete(s.tags, VOLUME)
    ensures item == RateCommand(1.0) ==> Step(s, item, d).tags == Delete(s.tags, RATE)
    ensures item == CharacterModeCommand(false) && SPELL !in Keys(s.tags) ==> Step(s, item, d).tags == s.tags
    ensures item == VolumeCommand(1.0) && VOLUME !in Keys(s.tags) ==> Step(s, item, d).tags == s.tags
    ensures item == RateCommand(1.0) && RATE !in Keys(s.tags) ==> Step(s, item, d).tags == s.tags
  {
  }

  /** Character mode on and then off, with no text between, leaves the tags
      as they were: no spell tag reaches the markup. */
  lemma SpellOnOffIsNetNoOp(s: State, d: Driver)
    requires Distinct(Keys(s.tags))
    requires SPELL !in Keys(s.tags)
    ensures Step(Step(s, CharacterModeCommand(true), d), CharacterModeCommand(false), d).tags == s.tags
  {
    DeleteAfterSet(s.tags, SPELL, []);
  }

  /** A volume multiplier of 1 after any other removes the volume override. */
  lemma VolumeResetRemovesOverride(s: State, m: real, d: Driver)
    requires Distinct(Keys(s.tags))
    ensures VOLUME !in Keys(Step(Step(s, VolumeCommand(m), d), VolumeCommand(1.0), d).tags)
  {
    var t := Step(s, VolumeCommand(m), d).tags;
    assert Distinct(Keys(t)) by {
      if m == 1.0 {
        DeleteKeepsDistinct(s.tags, VOLUME);
      } else {
        SetKeepsDistinct(s.tags, VOLUME, [("level", Scale(d.ttsVolume, m))]);
      }
    }
    DeleteKeepsDistinct(t, VOLUME);
  }

  /** A phoneme that cannot be converted falls back to its text, or to
      nothing when it has none; the tag state is untouched either way. */
  lemma PhonemeFallback(s: State, ipa: string, text: string, d: Driver)
    requires Convert(ipa, d.voiceLanguage).Failure?
    ensures var r := Step(s, PhonemeCommand(ipa, text), d);
      && r.tags == s.tags && r.openTags == s.openTags && r.changed == s.changed
      && r.out == s.out + (if text != "" then [Chars(text)] else [])
  {
    if text == "" {
      assert s.out + [] == s.out;
    }
  }

  /** A symbol missing from the table, with fallback text "cat", writes "cat"
      whatever the voice. */
  lemma UnknownSymbolFallsBackToText(s: State, d: Driver)
    ensures Step(s, PhonemeCommand("k", "cat"), d).out == s.out + [Chars("cat")]
  {
    ConvertExamples(d.voiceLanguage);
  }

  /** Phoneme text is written as it is, unlike plain text: fallback text that
      holds markup leaves the token list balanced, yet puts a lone closing
      tag into the string. */
  lemma PhonemeTextIsWrittenRaw(d: Driver)
    ensures Compile([PhonemeCommand("k", "</pitch>")], d) == [Chars("</pitch>")]
    ensures Balanced(Compile([PhonemeCommand("k", "</pitch>")], d))
    ensures RenderAll(Compile([PhonemeCommand("k", "</pitch>")], d)) == "</pitch>"
  {
    var items := [PhonemeCommand("k", "</pitch>")];
    ConvertExamples(d.voiceLanguage);
    var init := Initial(d);
    var s := Steps(init, items, d);
    assert s == Step(init, items[0], d) by {
      assert items[..|items| - 1] == [];
      assert Steps(init, [], d) == init;
    }
    assert s.out == [Chars("</pitch>")] && s.openTags == [];
    assert Compile(items, d) == [Chars("</pitch>")] by {
      assert CloseTokens([]) == [] && OpenTokens([]) == [];
    }
    assert RenderAll([Chars("</pitch>")]) == "</pitch>" by {
      assert [Chars("</pitch>")][1..] == [];
      assert "</pitch>" + "" == "</pitch>";
    }
  }

  /** One text item at the default pitch: `<pitch absmiddle="0">a&lt;b</pitch>`. */
  lemma CompileExample(d: Driver)
    requires d.pitch == 50
    ensures Compile([Text("a<b")], d) == [Open(PITCH, [("absmiddle", 0)]), Chars("a&lt;b"), Close(PITCH)]
    ensures RenderAll(Compile([Text("a<b")], d)) == "<pitch absmiddle=\"0\">a&lt;b</pitch>"
  {
    var items := [Text("a<b")];
    var s := Steps(Initial(d), items, d);
    FirstTextExample(d);
    assert CloseTokens([PITCH]) == [Close(PITCH)] by {
      assert [PITCH][1..] == [];
    }
    assert OpenTokens([]) == [];
    assert Compile(items, d) == s.out + [Close(PITCH)];
    RenderPitchExample();
  }

  /** After the text item, the pitch tag is open and the escaped text written. */
  lemma FirstTextExample(d: Driver)
    requires d.pitch == 50
    ensures var s := Steps(Initial(d), [Text("a<b")], d);
      s.out == [Open(PITCH, [("absmiddle", 0)]), Chars("a&lt;b")] && s.openTags == [PITCH]
  {
    var items := [Text("a<b")];
    var init := Initial(d);
    assert init.tags == [(PITCH, [("absmiddle", 0)])];
    assert Flush(init).out == [Open(PITCH, [("absmiddle", 0)])] by {
      assert CloseTokens([]) == [];
      assert OpenTokens(init.tags) == [Open(PITCH, [("absmiddle", 0)])];
    }
    assert Steps(init, items, d) == Step(init, Text("a<b"), d) by {
      assert items[..|items| - 1] == [];
      assert Steps(init, [], d) == init;
    }
    EscapeExample();
  }

  lemma EscapeExample()
    ensures Escape("a<b") == "a&lt;b"
  {
    assert "a<b"[1..] == "<b";
    assert "<b"[1..] == "b";
    assert "b"[1..] == "";
  }
}
