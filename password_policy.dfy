/**
 * The rule-checking behaviour of a `PasswordValidator` rule set: each rule is a
 * property of the password together with whether it must hold (`has()`) or must
 * not hold (`has().no()`), and a password is valid when every rule is met.
 * The character classes are the ASCII ones.
 */
module PasswordPolicy {

  /** The character classes a rule can ask for. */
  datatype CharClass = Uppercase | Lowercase | Digits | Spaces

  predicate InClass(c: char, cls: CharClass) {
    match cls
    case Uppercase => 'A' <= c <= 'Z'
    case Lowercase => 'a' <= c <= 'z'
    case Digits => '0' <= c <= '9'
    case Spaces => c == ' ' || c == '\t' || c == '\n' || c == '\r' || c == '\U{B}' || c == '\U{C}'
  }

  /** The property a rule tests. */
  datatype Property = Min(length: nat) | Max(length: nat) | Has(cls: CharClass)

  /** A rule: a property and whether the password must have it (`positive`) or lack it. */
  datatype Rule = Rule(property: Property, positive: bool)

  /** Scans the password for a character of the class, as a regular-expression search does. */
  predicate Contains(p: string, cls: CharClass)
  {
    if p == [] then false else InClass(p[0], cls) || Contains(p[1..], cls)
  }

  /** The scan finds a character of the class exactly when one occurs in the password. */
  lemma {:induction false} ContainsIff(p: string, cls: CharClass)
    ensures Contains(p, cls) <==> exists i :: 0 <= i < |p| && InClass(p[i], cls)
  {
    if p != [] {
      ContainsIff(p[1..], cls);
      if InClass(p[0], cls) {
        assert InClass(p[0], cls);
      } else if Contains(p[1..], cls) {
        var i :| 0 <= i < |p[1..]| && InClass(p[1..][i], cls);
        assert InClass(p[i + 1], cls);
      } else {
        forall i | 0 <= i < |p| ensures !InClass(p[i], cls) {
          if i > 0 { assert p[i] == p[1..][i - 1]; }
        }
      }
    }
  }

  predicate PropertyHolds(prop: Property, p: string) {
    match prop
    case Min(n) => |p| >= n
    case Max(n) => |p| <= n
    case Has(cls) => Contains(p, cls)
  }

  predicate RuleMet(rule: Rule, p: string) {
    PropertyHolds(rule.property, p) == rule.positive
  }

  /** `validate`: every rule of the set is met, in order. */
  predicate Validate(rules: seq<Rule>, p: string)
  {
    if rules == [] then true else RuleMet(rules[0], p) && Validate(rules[1..], p)
  }

  /** A password passes a rule set exactly when it meets each of the rules. */
  lemma {:induction false} ValidateAll(rules: seq<Rule>, p: string)
    ensures Validate(rules, p) <==> forall k :: 0 <= k < |rules| ==> RuleMet(rules[k], p)
  {
    if rules != [] {
      ValidateAll(rules[1..], p);
      assert forall k :: 0 < k < |rules| ==> rules[k] == rules[1..][k - 1];
    }
  }
}
