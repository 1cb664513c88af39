/** The field validator of the on-chain identity form (`checkValue`) and the
    constraints the form applies to its four fields. */
module IdentityValidation {
  import opened Wrappers
  import opened Text

  /** The default forbidden prefixes and suffixes: a blank and a tab. */
  const WHITESPACE: seq<string> := [" ", "\t"]

  /** `includes.reduce((acc, check) => acc && v.includes(check), acc)`: a left fold. */
  predicate IncludesAll(acc: bool, v: string, checks: seq<string>) {
    if checks == [] then acc else IncludesAll(acc && Contains(v, checks[0]), v, checks[1..])
  }

  /** `checks.some((check) => v.includes(check))`. */
  predicate IncludesSome(v: string, checks: seq<string>) {
    checks != [] && (Contains(v, checks[0]) || IncludesSome(v, checks[1..]))
  }

  /** `checks.some((check) => v.startsWith(check))`. */
  predicate StartsWithSome(v: string, checks: seq<string>) {
    checks != [] && (StartsWith(v, checks[0]) || StartsWithSome(v, checks[1..]))
  }

  /** `checks.some((check) => v.endsWith(check))`. */
  predicate EndsWithSome(v: string, checks: seq<string>) {
    checks != [] && (EndsWith(v, checks[0]) || EndsWithSome(v, checks[1..]))
  }

  lemma {:induction false} IncludesAllIff(acc: bool, v: string, checks: seq<string>)
    ensures IncludesAll(acc, v, checks) <==> acc && forall c :: c in checks ==> Contains(v, c)
  {
    if checks != [] {
      IncludesAllIff(acc && Contains(v, checks[0]), v, checks[1..]);
      assert forall c :: c in checks ==> c == checks[0] || c in checks[1..];
      if acc && forall c :: c in checks ==> Contains(v, c) {
        assert checks[0] in checks;
      }
    }
  }

  lemma {:induction false} IncludesSomeIff(v: string, checks: seq<string>)
    ensures IncludesSome(v, checks) <==> exists c :: c in checks && Contains(v, c)
  {
    if checks != [] {
      IncludesSomeIff(v, checks[1..]);
      assert forall c :: c in checks ==> c == checks[0] || c in checks[1..];
      if Contains(v, checks[0]) {
        assert checks[0] in checks;
      }
    }
  }

  lemma {:induction false} StartsWithSomeIff(v: string, checks: seq<string>)
    ensures StartsWithSome(v, checks) <==> exists c :: c in checks && StartsWith(v, c)
  {
    if checks != [] {
      StartsWithSomeIff(v, checks[1..]);
      assert forall c :: c in checks ==> c == checks[0] || c in checks[1..];
    }
  }

  lemma {:induction false} EndsWithSomeIff(v: string, checks: seq<string>)
    ensures EndsWithSome(v, checks) <==> exists c :: c in checks && EndsWith(v, c)
  {
    if checks != [] {
      EndsWithSomeIff(v, checks[1..]);
      assert forall c :: c in checks ==> c == checks[0] || c in checks[1..];
    }
  }

  /** `checkValue(hasValue, value, minLength, includes, excludes, starting,
      notStarting = WHITESPACE, notEnding = WHITESPACE)`. A missing or empty
      value (`!!value` is false) fails whenever a value is required. */
  predicate CheckValue(hasValue: bool, value: Option<string>, minLength: int,
                       includes: seq<string>, excludes: seq<string>, starting: seq<string>,
                       notStarting: seq<string> := WHITESPACE, notEnding: seq<string> := WHITESPACE)
  {
    !hasValue ||
    match value
    case None => false
    case Some(v) =>
      v != "" &&
      |v| >= minLength &&
      IncludesAll(true, v, includes) &&
      (|starting| == 0 || StartsWithSome(v, starting)) &&
      !IncludesSome(v, excludes) &&
      !StartsWithSome(v, notStarting) &&
      !EndsWithSome(v, notEnding)
  }

  /** What a required value must satisfy, stated with quantifiers. */
  ghost predicate MeetsConstraints(v: string, minLength: int, includes: seq<string>, excludes: seq<string>,
                                   starting: seq<string>, notStarting: seq<string>, notEnding: seq<string>)
  {
    && v != ""
    && |v| >= minLength
    && (forall c :: c in includes ==> Contains(v, c))
    && (starting == [] || exists c :: c in starting && StartsWith(v, c))
    && (forall c :: c in excludes ==> !Contains(v, c))
    && (forall c :: c in notStarting ==> !StartsWith(v, c))
    && (forall c :: c in notEnding ==> !EndsWith(v, c))
  }

  /** An optional field (`hasValue` false) always passes; a required one passes
      exactly when it is present and meets every constraint. */
  lemma CheckValueMeaning(hasValue: bool, value: Option<string>, minLength: int,
                          includes: seq<string>, excludes: seq<string>, starting: seq<string>,
                          notStarting: seq<string>, notEnding: seq<string>)
    ensures !hasValue ==> CheckValue(hasValue, value, minLength, includes, excludes, starting, notStarting, notEnding)
    ensures hasValue ==>
              (CheckValue(hasValue, value, minLength, includes, excludes, starting, notStarting, notEnding)
               <==> value.Some? && MeetsConstraints(value.value, minLength, includes, excludes, starting, notStarting, notEnding))
  {
    if value.Some? {
      var v := value.value;
      IncludesAllIff(true, v, includes);
      StartsWithSomeIff(v, starting);
      IncludesSomeIff(v, excludes);
      StartsWithSomeIff(v, notStarting);
      EndsWithSomeIff(v, notEnding);
    }
  }

  /** Display name and legal name: at least one character. */
  predicate OkName(v: string) {
    CheckValue(|v| > 0, Some(v), 1, [], [], [])
  }

  /** Email: at least three characters, an `@`, no blank or tab. */
  predicate OkEmail(v: string) {
    CheckValue(|v| > 0, Some(v), 3, ["@"], WHITESPACE, [])
  }

  /** Twitter handle: at least three characters, no blank, tab or slash. */
  predicate OkTwitter(v: string) {
    CheckValue(|v| > 0, Some(v), 3, [], WHITESPACE + ["/"], [])
  }

  /** A name the form has trimmed always passes its check: the only
      constraints on it are the blank/tab edges that trimming removes. */
  lemma TrimmedNameOk(s: string)
    ensures OkName(Trim(s))
  {
    var v := Trim(s);
    TrimmedEdges(s);
    CheckValueMeaning(|v| > 0, Some(v), 1, [], [], [], WHITESPACE, WHITESPACE);
  }

  /** An email passes exactly when it is empty or has three or more
      characters, an `@` and no blank or tab. */
  lemma OkEmailMeaning(v: string)
    ensures OkEmail(v) <==> v == "" || (|v| >= 3 && '@' in v && ' ' !in v && '\t' !in v)
  {
    CheckValueMeaning(|v| > 0, Some(v), 3, ["@"], WHITESPACE, [], WHITESPACE, WHITESPACE);
    ContainsChar(v, '@');
    ContainsChar(v, ' ');
    ContainsChar(v, '\t');
    EdgeIsContained(v, " ");
    EdgeIsContained(v, "\t");
  }

  /** A twitter handle passes exactly when it is empty or has three or more
      characters and no blank, tab or slash. */
  lemma OkTwitterMeaning(v: string)
    ensures OkTwitter(v) <==> v == "" || (|v| >= 3 && ' ' !in v && '\t' !in v && '/' !in v)
  {
    CheckValueMeaning(|v| > 0, Some(v), 3, [], WHITESPACE + ["/"], [], WHITESPACE, WHITESPACE);
    ContainsChar(v, '/');
    ContainsChar(v, ' ');
    ContainsChar(v, '\t');
    EdgeIsContained(v, " ");
    EdgeIsContained(v, "\t");
  }

  /** Two concrete calls: an address with `@` passes, one with a blank fails. */
  lemma EmailExamples()
    ensures CheckValue(true, Some("ab@cd"), 3, ["@"], [" ", "\t"], [])
    ensures !CheckValue(true, Some("ab cd"), 3, ["@"], [" ", "\t"], [])
  {
    OkEmailMeaning("ab@cd");
    OkEmailMeaning("ab cd");
    assert "ab cd"[2] == ' ';
  }
}
