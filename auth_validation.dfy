/** The checks shared by the sign-up and sign-in forms: blank fields and the email rule. */
module AuthValidation {
  import opened Text

  /** `!value.trim()`: the field is empty once surrounding whitespace is removed. */
  predicate Blank(value: string) {
    Trim(value) == []
  }

  /** A character of the class `[^\s@]`. */
  predicate PlainChar(c: char) {
    !IsSpace(c) && c != '@'
  }

  /** A run `[^\s@]+`: non-empty, no whitespace, no '@'. */
  predicate Plain(s: string) {
    s != [] && forall k :: 0 <= k < |s| ==> PlainChar(s[k])
  }

  predicate NoSpace(s: string) {
    forall k :: 0 <= k < |s| ==> !IsSpace(s[k])
  }

  /** The email rule as a direct check: no whitespace; a non-empty part before the
      first '@'; no second '@'; and a '.' in the domain that is neither its first
      nor its last character. */
  predicate EmailShape(s: string) {
    var local := BeforeFirst(s, '@');
    && NoSpace(s)
    && local != [] && |local| < |s|
    && var domain := s[|local| + 1..];
       '@' !in domain && 3 <= |domain| && '.' in domain[1..|domain| - 1]
  }

  /** `s` splits as `[^\s@]+ @ [^\s@]+ . [^\s@]+` with the '@' at `i` and the '.' at `j`. */
  ghost predicate MatchesAt(s: string, i: nat, j: nat) {
    && i < j < |s| && s[i] == '@' && s[j] == '.'
    && Plain(s[..i]) && Plain(s[i + 1..j]) && Plain(s[j + 1..])
  }

  /** The whole-string match of `^[^\s@]+@[^\s@]+\.[^\s@]+$`. */
  ghost predicate RegexEmail(s: string) {
    exists i: nat, j: nat :: MatchesAt(s, i, j)
  }

  /** `validateEmail`: the rule is tested on the trimmed value. */
  predicate ValidateEmail(value: string): (ok: bool)
    ensures ok ==> !Blank(value) && 5 <= |Trim(value)|
  {
    EmailShape(Trim(value))
  }

  /** The direct check accepts exactly the strings the regular expression matches. */
  lemma EmailShapeIsRegex(s: string)
    ensures EmailShape(s) <==> RegexEmail(s)
  {
    if EmailShape(s) {
      var i := |BeforeFirst(s, '@')|;
      var j := ShapeSplits(s);
      assert MatchesAt(s, i, j);
    }
    if RegexEmail(s) {
      var i: nat, j: nat :| MatchesAt(s, i, j);
      MatchIsShape(s, i, j);
    }
  }

  /** An accepted address holds exactly one '@'. */
  lemma EmailHasOneAt(s: string)
    requires EmailShape(s)
    ensures multiset(s)['@'] == 1
  {
    var local := BeforeFirst(s, '@');
    var domain := s[|local| + 1..];
    assert s == local + ['@'] + domain;
    assert multiset(s) == multiset(local) + multiset{'@'} + multiset(domain);
  }

  lemma ShapeSplits(s: string) returns (j: nat)
    requires EmailShape(s)
    ensures MatchesAt(s, |BeforeFirst(s, '@')|, j)
  {
    var local := BeforeFirst(s, '@');
    var i := |local|;
    var domain := s[i + 1..];
    var mid := domain[1..|domain| - 1];
    var k :| 0 <= k < |mid| && mid[k] == '.';
    j := i + 2 + k;
    assert s[j] == '.';
    assert s[..i] == local;
    assert s[i + 1..j] == domain[..k + 1];
    assert s[j + 1..] == domain[k + 2..];
    forall m | 0 <= m < i ensures PlainChar(s[..i][m]) {
      assert s[..i][m] == s[m] && local[m] in local;
    }
    var host, top := domain[..k + 1], domain[k + 2..];
    forall m | 0 <= m < |host| ensures PlainChar(host[m]) {
      assert host[m] == s[i + 1 + m] && domain[m] in domain;
    }
    forall m | 0 <= m < |top| ensures PlainChar(top[m]) {
      assert top[m] == s[j + 1 + m] && domain[k + 2 + m] in domain;
    }
  }

  lemma MatchIsShape(s: string, i: nat, j: nat)
    requires MatchesAt(s, i, j)
    ensures EmailShape(s) && BeforeFirst(s, '@') == s[..i]
  {
    var a, b, c := s[..i], s[i + 1..j], s[j + 1..];
    assert '@' !in a by {
      forall m | 0 <= m < |a| ensures a[m] != '@' { assert PlainChar(a[m]); }
    }
    BeforeFirstUnique(s, '@', a);
    forall k | 0 <= k < |s| ensures !IsSpace(s[k]) {
      if k < i {
        assert s[k] == a[k];
      } else if i < k < j {
        assert s[k] == b[k - i - 1];
      } else if j < k {
        assert s[k] == c[k - j - 1];
      }
    }
    var domain := s[i + 1..];
    forall m | 0 <= m < |domain| ensures domain[m] != '@' {
      if m < j - i - 1 {
        assert domain[m] == b[m];
      } else if m > j - i - 1 {
        assert domain[m] == c[m - (j - i)];
      }
    }
    assert domain[1..|domain| - 1][j - i - 2] == s[j];
  }
}
