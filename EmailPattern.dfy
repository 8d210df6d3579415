/**
 * The e-mail check shared by the contact form and the early-access form:
 * the regular expression /^[^\s@]+@[^\s@]+\.[^\s@]+$/, written as the set of
 * strings it matches, and a characterisation of that set in plain terms.
 */
module EmailPattern {

  /**
   * The class \s of ECMAScript regular expressions: WhiteSpace and LineTerminator.
   * Letters, digits, '.' and '@' are never in it.
   */
  predicate IsSpace(c: char)
    ensures IsSpace(c) ==>
      c != '@' && c != '.' && !('0' <= c <= '9') && !('a' <= c <= 'z') && !('A' <= c <= 'Z')
  {
    || c == '\t' || c == '\n' || c == '\U{000B}' || c == '\U{000C}' || c == '\r'
    || c == ' ' || c == '\U{00A0}' || c == '\U{1680}'
    || ('\U{2000}' <= c <= '\U{200A}')
    || c == '\U{2028}' || c == '\U{2029}' || c == '\U{202F}' || c == '\U{205F}'
    || c == '\U{3000}' || c == '\U{FEFF}'
  }

  /** One character of the class [^\s@]. */
  predicate PartChar(c: char) {
    !IsSpace(c) && c != '@'
  }

  /** The string matches [^\s@]+ as a whole. */
  predicate IsPart(t: string) {
    |t| > 0 && forall k :: 0 <= k < |t| ==> PartChar(t[k])
  }

  /**
   * The string matches ^[^\s@]+@[^\s@]+\.[^\s@]+$: it splits at some '@' (index i)
   * and some later '.' (index j) into three non-empty runs of [^\s@].
   */
  predicate ValidEmail(s: string)
    ensures ValidEmail(s) ==> |s| >= 5
  {
    exists i, j | 0 <= i < j < |s| ::
      s[i] == '@' && s[j] == '.' && IsPart(s[..i]) && IsPart(s[i + 1..j]) && IsPart(s[j + 1..])
  }

  // ---------------------------------------------------------------------------
  // The characterisation

  predicate NoSpace(s: string) {
    forall k :: 0 <= k < |s| ==> !IsSpace(s[k])
  }

  /** Index a holds an '@' and no other index does: the string has exactly one '@'. */
  predicate OnlyAtSignAt(s: string, a: nat) {
    a < |s| && s[a] == '@' && forall k :: 0 <= k < |s| && s[k] == '@' ==> k == a
  }

  /** The string contains a '.' that is neither its first nor its last character. */
  predicate HasInnerDot(domain: string) {
    exists k :: 0 < k < |domain| - 1 && domain[k] == '.'
  }

  /**
   * Exactly one '@', no whitespace, a non-empty part before the '@', and a part
   * after the '@' with a '.' that is neither its first nor its last character.
   */
  predicate WellFormedAddress(s: string) {
    NoSpace(s) &&
    exists a :: 0 <= a < |s| && OnlyAtSignAt(s, a) && |s[..a]| > 0 && HasInnerDot(s[a + 1..])
  }

  lemma MatchIsWellFormed(s: string, i: nat, j: nat)
    requires i < j < |s| && s[i] == '@' && s[j] == '.'
    requires IsPart(s[..i]) && IsPart(s[i + 1..j]) && IsPart(s[j + 1..])
    ensures WellFormedAddress(s)
  {
    // every index lies in one of the three runs, or is the '@' or the '.'
    forall k | 0 <= k < |s|
      ensures !IsSpace(s[k]) && (s[k] == '@' ==> k == i)
    {
      if k < i {
        assert s[..i][k] == s[k];
      } else if i < k < j {
        assert s[i + 1..j][k - i - 1] == s[k];
      } else if j < k {
        assert s[j + 1..][k - j - 1] == s[k];
      }
    }
    var domain := s[i + 1..];
    assert domain[j - i - 1] == '.';
    assert 0 < j - i - 1 < |domain| - 1;
    assert OnlyAtSignAt(s, i);
  }

  lemma WellFormedIsMatch(s: string, a: nat, d: nat)
    requires NoSpace(s) && a < |s| && OnlyAtSignAt(s, a) && a > 0
    requires a + 1 < d < |s| - 1 && s[d] == '.'
    ensures ValidEmail(s)
  {
    assert IsPart(s[..a]) by {
      forall k | 0 <= k < a ensures PartChar(s[..a][k]) {
        assert s[..a][k] == s[k];
      }
    }
    var domain, tld := s[a + 1..d], s[d + 1..];
    assert IsPart(domain) by {
      forall k | 0 <= k < |domain| ensures PartChar(domain[k]) {
        assert domain[k] == s[a + 1 + k];
      }
    }
    assert IsPart(tld) by {
      forall k | 0 <= k < |tld| ensures PartChar(tld[k]) {
        assert tld[k] == s[d + 1 + k];
      }
    }
  }

  /** The regular expression accepts exactly the well-formed addresses. */
  lemma ValidEmailCharacterisation(s: string)
    ensures ValidEmail(s) <==> WellFormedAddress(s)
  {
    if ValidEmail(s) {
      var i, j :| 0 <= i < j < |s| && s[i] == '@' && s[j] == '.'
        && IsPart(s[..i]) && IsPart(s[i + 1..j]) && IsPart(s[j + 1..]);
      MatchIsWellFormed(s, i, j);
    }
    if WellFormedAddress(s) {
      var a :| 0 <= a < |s| && OnlyAtSignAt(s, a) && |s[..a]| > 0 && HasInnerDot(s[a + 1..]);
      var k :| 0 < k < |s[a + 1..]| - 1 && s[a + 1..][k] == '.';
      WellFormedIsMatch(s, a, a + 1 + k);
    }
  }

  /** Every local@domain.tld built from three runs of [^\s@] matches. */
  lemma ComposedAddressMatches(local: string, domain: string, tld: string)
    requires IsPart(local) && IsPart(domain) && IsPart(tld)
    ensures ValidEmail(local + "@" + domain + "." + tld)
  {
    var s := local + "@" + domain + "." + tld;
    var i, j := |local|, |local| + 1 + |domain|;
    assert s[..i] == local;
    assert s[i + 1..j] == domain;
    assert s[j + 1..] == tld;
    assert s[i] == '@' && s[j] == '.';
  }

  /** Addresses the forms accept. */
  lemma AcceptedShortSample()
    ensures ValidEmail("a@b.com")
  {
    assert IsPart("a") && IsPart("b") && IsPart("com");
    ComposedAddressMatches("a", "b", "com");
    assert "a" + "@" + "b" + "." + "com" == "a@b.com";
  }

  lemma AcceptedSignupSample()
    ensures ValidEmail("user@example.com")
  {
    assert IsPart("user") && IsPart("example") && IsPart("com");
    ComposedAddressMatches("user", "example", "com");
    assert "user" + "@" + "example" + "." + "com" == "user@example.com";
  }

  lemma AcceptedContactSample()
    ensures ValidEmail("jane@x.com")
  {
    assert IsPart("jane") && IsPart("x") && IsPart("com");
    ComposedAddressMatches("jane", "x", "com");
    assert "jane" + "@" + "x" + "." + "com" == "jane@x.com";
  }

  /** A string without an '@' never matches. */
  lemma NoAtSignRejected(s: string)
    requires '@' !in s
    ensures !ValidEmail(s)
  {
  }

  /** No '@' at all, or nothing after it that has a '.'. */
  lemma RejectedShapeSamples()
    ensures !ValidEmail("")
    ensures !ValidEmail("not-an-email")
    ensures !ValidEmail("bad-email")
    ensures !ValidEmail("a@b")
  {
    NoAtSignRejected("not-an-email");
    NoAtSignRejected("bad-email");
    ValidEmailCharacterisation("a@b");
  }

  /** Whitespace, a second '@', or a '.' at the edge of the domain. */
  lemma RejectedCharacterSamples()
    ensures !ValidEmail("a b@c.com")
    ensures !ValidEmail("a@b@c.com")
    ensures !ValidEmail("a@.com")
    ensures !ValidEmail("a@b.")
  {
    ValidEmailCharacterisation("a b@c.com");
    assert IsSpace("a b@c.com"[1]);
    ValidEmailCharacterisation("a@b@c.com");
    assert "a@b@c.com"[1] == '@' && "a@b@c.com"[3] == '@';
    ValidEmailCharacterisation("a@.com");
    ValidEmailCharacterisation("a@b.");
  }
}
