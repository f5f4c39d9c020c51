/** The Front Door name validators: each is one anchored pattern match and a validation result. */
module FrontDoor {
  import opened Common
  import opened Pattern
  import Ascii

  /** `[\da-zA-Z]` */
  const ALNUM: CharClass := CharClass([('0', '9'), ('a', 'z'), ('A', 'Z')])
  /** `[-\da-zA-Z]` */
  const ALNUM_HYPHEN: CharClass := CharClass([('-', '-'), ('0', '9'), ('a', 'z'), ('A', 'Z')])

  /** `(^[\da-zA-Z])([-\da-zA-Z]{3,61})([\da-zA-Z]$)` */
  const FRONT_DOOR_NAME_PATTERN: Pattern := [Once(ALNUM), Repeat(ALNUM_HYPHEN, 3, Some(61)), Once(ALNUM)]
  /** `(^[\da-zA-Z])([-\da-zA-Z]{1,88})([\da-zA-Z]$)` */
  const ROUTING_RULE_NAME_PATTERN: Pattern := [Once(ALNUM), Repeat(ALNUM_HYPHEN, 1, Some(88)), Once(ALNUM)]

  /** A diagnostic in the error list of a validator. */
  datatype Diagnostic =
    | HelperDiagnostic(detail: string)
      // reported by the regular-expression helper, whose own rules are not modelled
    | NameRuleViolation(key: string, statedMinLength: nat, statedMaxLength: nat)
      // the validator's own message, with the length bounds the message states

  /** The `(warnings, errors)` pair every schema validator returns. */
  datatype Validation = Validation(warnings: seq<string>, errors: seq<Diagnostic>)

  predicate IsNameChar(c: char) {
    Ascii.IsAlnum(c) || c == '-'
  }

  /**
   * The rule the validators enforce, in words: between `minLength` and `maxLength` characters,
   * beginning and ending with a letter or digit, and only letters, digits or hyphens in all.
   */
  predicate NameRule(s: string, minLength: nat, maxLength: nat) {
    minLength <= |s| <= maxLength &&
    |s| >= 1 && Ascii.IsAlnum(s[0]) && Ascii.IsAlnum(s[|s| - 1]) &&
    forall i :: 0 <= i < |s| ==> IsNameChar(s[i])
  }

  lemma AlnumClass(c: char)
    ensures InClass(c, ALNUM) <==> Ascii.IsAlnum(c)
  {
    if Ascii.IsAlnum(c) {
      if '0' <= c <= '9' { assert ALNUM.ranges[0] in ALNUM.ranges; }
      else if 'a' <= c <= 'z' { assert ALNUM.ranges[1] in ALNUM.ranges; }
      else { assert ALNUM.ranges[2] in ALNUM.ranges; }
    }
  }

  lemma AlnumHyphenClass(c: char)
    ensures InClass(c, ALNUM_HYPHEN) <==> IsNameChar(c)
  {
    if IsNameChar(c) {
      if c == '-' { assert ALNUM_HYPHEN.ranges[0] in ALNUM_HYPHEN.ranges; }
      else if '0' <= c <= '9' { assert ALNUM_HYPHEN.ranges[1] in ALNUM_HYPHEN.ranges; }
      else if 'a' <= c <= 'z' { assert ALNUM_HYPHEN.ranges[2] in ALNUM_HYPHEN.ranges; }
      else { assert ALNUM_HYPHEN.ranges[3] in ALNUM_HYPHEN.ranges; }
    }
  }

  /** A pattern `(^[\da-zA-Z])([-\da-zA-Z]{lo,hi})([\da-zA-Z]$)` accepts exactly the names of `NameRule(s, lo + 2, hi + 2)`. */
  lemma {:induction false} BracketedNamePattern(lo: nat, hi: nat, s: string)
    ensures FullMatch([Once(ALNUM), Repeat(ALNUM_HYPHEN, lo, Some(hi)), Once(ALNUM)], s) <==> NameRule(s, lo + 2, hi + 2)
  {
    FullMatchBracketed(ALNUM, Repeat(ALNUM_HYPHEN, lo, Some(hi)), s);
    if |s| >= 2 {
      AlnumClass(s[0]);
      AlnumClass(s[|s| - 1]);
      var middle := s[1..|s| - 1];
      forall i | 0 <= i < |middle| ensures InClass(middle[i], ALNUM_HYPHEN) <==> IsNameChar(s[i + 1]) {
        AlnumHyphenClass(middle[i]);
      }
      if AllInClass(middle, ALNUM_HYPHEN) && Ascii.IsAlnum(s[0]) && Ascii.IsAlnum(s[|s| - 1]) {
        forall i | 0 <= i < |s| ensures IsNameChar(s[i]) {
          if 0 < i < |s| - 1 { assert middle[i - 1] == s[i]; }
        }
      }
    }
  }

  lemma FrontDoorNamePatternMeaning(s: string)
    ensures FullMatch(FRONT_DOOR_NAME_PATTERN, s) <==> NameRule(s, 5, 63)
  {
    BracketedNamePattern(3, 61, s);
  }

  lemma RoutingRuleNamePatternMeaning(s: string)
    ensures FullMatch(ROUTING_RULE_NAME_PATTERN, s) <==> NameRule(s, 3, 90)
  {
    BracketedNamePattern(1, 88, s);
  }

  /**
   * `ValidateFrontDoorName` for a string value `i` under key `k`. `regexErrs` is what the
   * regular-expression helper returned beside its verdict; on a match the source discards it.
   */
  function ValidateFrontDoorName(i: string, k: string, regexErrs: seq<Diagnostic>): (r: Validation)
    ensures r.warnings == []
    ensures r.errors == [] <==> NameRule(i, 5, 63)
    ensures !NameRule(i, 5, 63) ==> r.errors == regexErrs + [NameRuleViolation(k, 5, 63)]
  {
    FrontDoorNamePatternMeaning(i);
    if FullMatch(FRONT_DOOR_NAME_PATTERN, i) then Validation([], [])
    else Validation([], regexErrs + [NameRuleViolation(k, 5, 63)])
  }

  /**
   * `ValidateBackendPoolRoutingRuleName`. The accepted lengths are those of the pattern, 3 to 90;
   * the message it appends states 1 to 90.
   */
  function ValidateBackendPoolRoutingRuleName(i: string, k: string, regexErrs: seq<Diagnostic>): (r: Validation)
    ensures r.warnings == []
    ensures r.errors == [] <==> NameRule(i, 3, 90)
    ensures !NameRule(i, 3, 90) ==> r.errors == regexErrs + [NameRuleViolation(k, 1, 90)]
  {
    RoutingRuleNamePatternMeaning(i);
    if FullMatch(ROUTING_RULE_NAME_PATTERN, i) then Validation([], [])
    else Validation([], regexErrs + [NameRuleViolation(k, 1, 90)])
  }

  /** Every accepted Front Door name is also an accepted backend pool or routing rule name. */
  lemma FrontDoorNamesAreRoutingRuleNames(i: string, k: string, e1: seq<Diagnostic>, e2: seq<Diagnostic>)
    requires ValidateFrontDoorName(i, k, e1).errors == []
    ensures ValidateBackendPoolRoutingRuleName(i, k, e2).errors == []
  {
  }

  /** A name that starts or ends with a hyphen, or holds any character other than a letter, digit or hyphen, is rejected by both. */
  lemma RejectedCharacters(i: string, k: string, e: seq<Diagnostic>)
    requires |i| >= 1
    requires i[0] == '-' || i[|i| - 1] == '-' || exists j :: 0 <= j < |i| && !IsNameChar(i[j])
    ensures ValidateFrontDoorName(i, k, e).errors != []
    ensures ValidateBackendPoolRoutingRuleName(i, k, e).errors != []
  {
  }

  /** Two-character names lie within the 1 to 90 that the routing-rule message states, yet the pattern rejects them. */
  lemma RoutingRuleMessageUnderstatesMinimum(k: string)
    ensures var r := ValidateBackendPoolRoutingRuleName("ab", k, []);
      r.errors == [NameRuleViolation(k, 1, 90)] && 1 <= |"ab"| <= 90
  {
  }
}
