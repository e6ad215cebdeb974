/** Which spellings of a job name the print broker takes for the same job. */
module JobNames {
  import opened Text
  import opened Reports
  import opened PrintTracking

  lemma {:induction false} StripLeavesStripped(s: string)
    requires Stripped(s)
    ensures Strip(s) == s
  {}

  lemma LowerConcat(a: string, b: string)
    ensures Lower(a + b) == Lower(a) + Lower(b)
  {}

  predicate HasSuffix(lowered: string) {
    EndsWith(lowered, ".3mf") || EndsWith(lowered, ".gcode")
  }

  predicate IsSuffix(suffix: string) {
    Lower(suffix) == ".3mf" || Lower(suffix) == ".gcode"
  }

  lemma SuffixIsInk(suffix: string)
    requires IsSuffix(suffix)
    ensures suffix != "" && !IsSpace(suffix[0]) && !IsSpace(suffix[|suffix| - 1])
  {
    var lowered := Lower(suffix);
    assert LowerChar(suffix[0]) == lowered[0] == '.';
    assert LowerChar(suffix[|suffix| - 1]) == lowered[|suffix| - 1];
    assert lowered[|suffix| - 1] == 'f' || lowered[|suffix| - 1] == 'e';
  }

  // Stripping on the right leaves a prefix that does not end in white space.
  lemma {:induction false} StripRightIs(s: string)
    ensures StripRight(s) <= s && (StripRight(s) != "" ==> !IsSpace(StripRight(s)[|StripRight(s)| - 1]))
    ensures s != "" && !IsSpace(s[|s| - 1]) ==> StripRight(s) == s
  {
    if s != "" && IsSpace(s[|s| - 1]) {
      StripRightIs(s[..|s| - 1]);
    }
  }

  lemma {:induction false} StripLeftOfConcat(name: string, ink: string)
    requires ink != "" && !IsSpace(ink[0])
    ensures StripLeft(name + ink) == StripLeft(name) + ink
  {
    if name == "" {
      assert name + ink == ink;
    } else if IsSpace(name[0]) {
      assert (name + ink)[1..] == name[1..] + ink;
      StripLeftOfConcat(name[1..], ink);
    }
  }

  // A suffix is not white space, so stripping stops there on the right.
  lemma {:induction false} StripOfSuffixed(name: string, suffix: string)
    requires IsSuffix(suffix)
    ensures Strip(name + suffix) == StripLeft(name) + suffix
  {
    SuffixIsInk(suffix);
    StripLeftOfConcat(name, suffix);
    var whole := StripLeft(name) + suffix;
    assert whole[|whole| - 1] == suffix[|suffix| - 1];
    StripRightIs(whole);
  }

  lemma {:induction false} IdentityOfSuffixed(name: string, suffix: string)
    requires IsSuffix(suffix)
    ensures NameIdentity(name + suffix) == Lower(StripLeft(name))
  {
    hide StripLeft, StripRight;
    StripOfSuffixed(name, suffix);
    var head := StripLeft(name);
    LowerConcat(head, suffix);
    var lowered := Lower(head + suffix);
    assert lowered[|head|..] == Lower(suffix);
    assert lowered[..|head|] == Lower(head);
    if Lower(suffix) == ".gcode" {
      assert lowered[|lowered| - 1] == 'e';
      assert ".3mf"[3] == 'f';
    }
  }

  lemma IdentityOfPlain(name: string)
    ensures !HasSuffix(Lower(Strip(name))) ==> NameIdentity(name) == Lower(Strip(name))
    ensures HasSuffix(Lower(Strip(name))) ==> |NameIdentity(name)| < |Strip(name)|
  {
    hide StripLeft, StripRight;
  }

  // The name loses nothing but the suffix to normalisation: no white space before it, and no second suffix.
  predicate DropsCleanly(name: string) {
    StripLeft(name) == Strip(name) && !HasSuffix(Lower(Strip(name)))
  }

  /**
   * For every name: dropping one trailing .3mf or .gcode (in any case) keeps its identity exactly when
   * no white space stood before the suffix and what is left does not itself end in one of them.
   */
  lemma {:induction false} DroppedSuffixIff(name: string, suffix: string)
    requires IsSuffix(suffix)
    ensures NameIdentity(name + suffix) == NameIdentity(name) <==> DropsCleanly(name)
  {
    hide NameIdentity, StripLeft, StripRight, HasSuffix;
    IdentityOfSuffixed(name, suffix);
    IdentityOfPlain(name);
    StripRightIs(StripLeft(name));
    if Lower(StripLeft(name)) == Lower(Strip(name)) {
      assert |StripLeft(name)| == |Strip(name)|;
    }
  }

  lemma LowerKeepsSpaces(c: char)
    ensures IsSpace(LowerChar(c)) == IsSpace(c)
  {}

  lemma {:induction false} StripLeftLowers(s: string)
    ensures StripLeft(Lower(s)) == Lower(StripLeft(s))
  {
    if s != "" {
      LowerKeepsSpaces(s[0]);
      assert Lower(s)[1..] == Lower(s[1..]);
      StripLeftLowers(s[1..]);
    }
  }

  lemma {:induction false} StripRightLowers(s: string)
    ensures StripRight(Lower(s)) == Lower(StripRight(s))
  {
    if s != "" {
      LowerKeepsSpaces(s[|s| - 1]);
      assert Lower(s)[..|s| - 1] == Lower(s[..|s| - 1]);
      StripRightLowers(s[..|s| - 1]);
    }
  }

  lemma StripLowers(s: string)
    ensures Strip(Lower(s)) == Lower(Strip(s))
  {
    StripLeftLowers(s);
    StripRightLowers(StripLeft(s));
  }

  /** Names differing only in case are one job, white space and suffixes included. */
  lemma {:induction false} CaseIsIgnored(a: string, b: string)
    requires Lower(a) == Lower(b)
    ensures NameIdentity(a) == NameIdentity(b)
  {
    hide Strip;
    StripLowers(a);
    StripLowers(b);
  }

  lemma {:induction false} StripLeftIs(s: string)
    ensures |StripLeft(s)| <= |s| && StripLeft(s) == s[|s| - |StripLeft(s)|..]
    ensures StripLeft(s) != "" ==> !IsSpace(StripLeft(s)[0])
  {
    if s != "" && IsSpace(s[0]) {
      StripLeftIs(s[1..]);
    }
  }

  lemma {:induction false} StripIsStripped(s: string)
    ensures Stripped(Strip(s)) && Strip(Strip(s)) == Strip(s)
  {
    StripLeftIs(s);
    StripRightIs(StripLeft(s));
    StripLeavesStripped(Strip(s));
  }

  // The field a report's job name is read from.
  function NameField(r: Report): Value {
    Or(Get(r, SubtaskName), Get(r, GcodeFile))
  }

  lemma {:induction false} NameOfField(r: Report, text: string)
    requires NameField(r) == Str(text)
    ensures NameOf(r) == Strip(text) && NameIdentity(NameOf(r)) == NameIdentity(text)
  {
    StripIsStripped(text);
  }

  // Nothing in an empty name is left to compare.
  lemma {:induction false} BlankInAnyCase(a: string, b: string)
    requires Lower(a) == Lower(b)
    ensures Strip(a) == "" <==> Strip(b) == ""
  {
    hide Strip;
    StripLowers(a);
    StripLowers(b);
    assert |Strip(a)| == |Lower(Strip(a))| == |Lower(Strip(b))| == |Strip(b)|;
  }

  lemma {:induction false} SuffixedIsNotBlank(name: string, suffix: string)
    requires IsSuffix(suffix)
    ensures Strip(name + suffix) != ""
  {
    SuffixIsInk(suffix);
    StripOfSuffixed(name, suffix);
  }

  /** A report naming the running job with nothing but its case changed never triggers the name clause. */
  lemma {:induction false} CaseDoesNotSplit(raw: Report, report: Report, a: string, b: string)
    requires NameField(raw) == Str(a) && NameField(report) == Str(b) && Lower(a) == Lower(b)
    ensures !NameChanged(raw, report)
  {
    hide NameOf, NameIdentity, NameField, IdentityStable;
    NameOfField(raw, a);
    NameOfField(report, b);
    CaseIsIgnored(a, b);
  }

  // One of the reports names the job in full, the other without the suffix; case may differ in both.
  predicate Spells(raw: Report, report: Report, long: string, short: string) {
    || (NameField(raw) == Str(long) && NameField(report) == Str(short))
    || (NameField(raw) == Str(short) && NameField(report) == Str(long))
  }

  /**
   * On the report fields themselves, in any case: two spellings of one file trigger the name clause
   * exactly when the short one is not blank, no id vouches for the job, and the suffix does not drop cleanly.
   */
  lemma {:induction false} SpellingsSplitIff(raw: Report, report: Report, name: string, suffix: string, long: string,
                                             short: string)
    requires IsSuffix(suffix) && Lower(long) == Lower(name + suffix) && Lower(short) == Lower(name)
    requires Spells(raw, report, long, short)
    ensures NameChanged(raw, report) <==> Strip(name) != "" && !IdentityStable(raw, report) && !DropsCleanly(name)
  {
    hide NameOf, NameIdentity, NameField, IdentityStable, DropsCleanly, Strip, Lower, IsSuffix;
    CaseIsIgnored(long, name + suffix);
    CaseIsIgnored(short, name);
    BlankInAnyCase(long, name + suffix);
    BlankInAnyCase(short, name);
    SuffixedIsNotBlank(name, suffix);
    DroppedSuffixIff(name, suffix);
    if NameField(raw) == Str(long) && NameField(report) == Str(short) {
      NameOfField(raw, long);
      NameOfField(report, short);
    } else {
      NameOfField(raw, short);
      NameOfField(report, long);
    }
  }

  /** The two spellings of one file never split a job by name, unless the short one keeps an extension. */
  lemma {:induction false} SpellingsDoNotSplit(raw: Report, report: Report, name: string, suffix: string)
    requires IsSuffix(suffix) && DropsCleanly(name)
    requires || (NameOf(report) == name && NameOf(raw) == name + suffix)
             || (NameOf(raw) == name && NameOf(report) == name + suffix)
    ensures !NameChanged(raw, report)
  {
    hide NameOf, NameIdentity, DropsCleanly, IsSuffix, IdentityStable;
    DroppedSuffixIff(name, suffix);
  }

  // The two reports of the exception below.
  const LONG_NAME := "plate.gcode.3mf"
  const SHORT_NAME := "plate.gcode"
  const AS_FILE: Report := map[GcodeState := Str("RUNNING"), GcodeFile := Str(LONG_NAME)]
  const AS_TASK: Report := map[GcodeState := Str("RUNNING"), SubtaskName := Str(SHORT_NAME)]

  lemma ExampleTexts()
    ensures NameOf(AS_FILE) == LONG_NAME == SHORT_NAME + ".3mf"
    ensures NameOf(AS_TASK) == SHORT_NAME
    ensures StateOf(AS_TASK) == "RUNNING"
  {
    StripLeavesStripped(LONG_NAME);
    StripLeavesStripped(SHORT_NAME);
    StripLeavesStripped("RUNNING");
  }

  lemma ExampleSuffix()
    ensures Stripped(SHORT_NAME) && IsSuffix(".3mf") && HasSuffix(Lower(SHORT_NAME))
  {
    assert Lower(SHORT_NAME) == SHORT_NAME;
    assert EndsWith(SHORT_NAME, ".gcode");
    assert Lower(".3mf") == ".3mf";
  }

  lemma ExampleHasNoIds()
    ensures !IdentityStable(AS_FILE, AS_TASK)
  {}

  /**
   * The exception is real: a file running as plate.gcode.3mf and reported again as plate.gcode restarts its own job.
   */
  lemma DoubleExtensionSplits()
    ensures Boundary(AS_FILE, AS_TASK)
  {
    hide NameOf, StateOf, Strip, NameIdentity, Stripped, IsSuffix, HasSuffix, IdentityStable, Upper;
    ExampleTexts();
    ExampleSuffix();
    ExampleHasNoIds();
    DroppedSuffixIff(SHORT_NAME, ".3mf");
  }

  // A file with a space before its suffix, and the same print by its subtask name.
  const SPACED_FILE: Report := map[GcodeState := Str("RUNNING"), GcodeFile := Str("gear .3mf")]
  const SPACED_TASK: Report := map[GcodeState := Str("RUNNING"), SubtaskName := Str("gear ")]

  lemma SpacedStates()
    ensures StateOf(SPACED_TASK) == "RUNNING" && !IdentityStable(SPACED_FILE, SPACED_TASK)
  {
    StripLeavesStripped("RUNNING");
  }

  lemma SpacedName()
    ensures StripLeft("gear ") == "gear " && Strip("gear ") == "gear" && "gear " + ".3mf" == "gear .3mf"
  {
    assert "gear "[..4] == "gear";
    StripRightIs("gear");
  }

  /** So is the other one: a file running as "gear .3mf" and reported again as "gear " restarts its own job. */
  lemma {:induction false} SpaceBeforeSuffixSplits()
    ensures Boundary(SPACED_FILE, SPACED_TASK)
  {
    hide NameOf, StateOf, Strip, NameIdentity, IdentityStable, Upper, NameChanged;
    SpacedStates();
    SpacedName();
    assert IsSuffix(".3mf") by {
      assert Lower(".3mf") == ".3mf";
    }
    assert NameField(SPACED_FILE) == Str("gear .3mf") && NameField(SPACED_TASK) == Str("gear ");
    SpellingsSplitIff(SPACED_FILE, SPACED_TASK, "gear ", ".3mf", "gear .3mf", "gear ");
    assert "RUNNING" in ACTIVE_STATES;
  }
}
