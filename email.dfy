/**
 * The email pattern of the admin user form
 * (`/^\w+([.-]?\w+)*@\w+([.-]?\w+)*(\.\w{2,3})+$/`), stated structurally:
 * a run of word characters with single `.`/`-` separators, an `@`, and a
 * domain that is such a run followed by one or more `.` groups of two or
 * three word characters. `\w` is the ASCII set `[A-Za-z0-9_]`.
 */
module EmailPattern {
  import opened Text

  predicate IsWord(c: char) {
    IsAsciiLower(c) || IsAsciiUpper(c) || IsDigit(c) || c == '_'
  }

  predicate IsSep(c: char) { c == '.' || c == '-' }

  predicate AllWord(s: string) {
    forall k :: 0 <= k < |s| ==> IsWord(s[k])
  }

  /** `\w+([.-]?\w+)*`: word characters, starting and ending with one, no two separators in a row. */
  predicate SepWords(s: string) {
    && s != []
    && IsWord(s[0]) && IsWord(s[|s| - 1])
    && (forall k :: 0 <= k < |s| ==> IsWord(s[k]) || IsSep(s[k]))
    && (forall k :: 0 <= k < |s| - 1 ==> IsWord(s[k]) || IsWord(s[k + 1]))
  }

  /** `(\.\w{2,3})+` */
  predicate TopGroups(s: string)
    decreases |s|
  {
    && |s| >= 3 && s[0] == '.'
    && (|| (AllWord(s[1..3]) && (|s| == 3 || TopGroups(s[3..])))
        || (|s| >= 4 && AllWord(s[1..4]) && (|s| == 4 || TopGroups(s[4..]))))
  }

  /** `\w+([.-]?\w+)*(\.\w{2,3})+`: some split into a separated run and the top groups. */
  predicate Domain(s: string) {
    exists i :: 0 < i < |s| && SepWords(s[..i]) && TopGroups(s[i..])
  }

  /** The whole pattern. Neither side can hold an `@`, so the split is at the first one. */
  predicate EmailFormat(e: string) {
    '@' in e && SepWords(e[..IndexOf(e, '@')]) && Domain(e[IndexOf(e, '@') + 1..])
  }

  lemma {:induction false} TopGroupsEnds(s: string)
    requires TopGroups(s)
    ensures IsWord(s[|s| - 1])
    decreases |s|
  {
    if |s| > 4 || (|s| == 4 && !AllWord(s[1..4])) {
      if AllWord(s[1..3]) && |s| > 3 && TopGroups(s[3..]) {
        TopGroupsEnds(s[3..]);
        assert s[3..][|s| - 4] == s[|s| - 1];
      } else {
        TopGroupsEnds(s[4..]);
        assert s[4..][|s| - 5] == s[|s| - 1];
      }
    } else {
      assert s[|s| - 1] == s[1..|s|][|s| - 2];
    }
  }

  /**
   * An address the pattern accepts starts and ends with a word character, so
   * it is its own trim: the form's separate empty check never decides alone.
   */
  lemma FormatIsTrimmed(e: string)
    requires EmailFormat(e)
    ensures e != [] && Trim(e) == e
  {
    FormatEnds(e);
    WordNotSpace(e[0]);
    WordNotSpace(e[|e| - 1]);
    TrimOfTrimmed(e);
  }

  /** A value that trims to nothing does not match. */
  lemma BlankRejected(e: string)
    requires Trim(e) == ""
    ensures !EmailFormat(e)
  {
    if EmailFormat(e) {
      FormatIsTrimmed(e);
    }
  }

  /** A matching address starts with the local part's first character and ends with the top group's last. */
  lemma FormatEnds(e: string)
    requires EmailFormat(e)
    ensures e != [] && IsWord(e[0]) && IsWord(e[|e| - 1])
  {
    var at := IndexOf(e, '@');
    assert e[0] == e[..at][0];
    DomainEnds(e[at + 1..]);
    assert e[at + 1..][|e| - at - 2] == e[|e| - 1];
  }

  lemma DomainEnds(d: string)
    requires Domain(d)
    ensures d != [] && IsWord(d[|d| - 1])
  {
    var i :| 0 < i < |d| && SepWords(d[..i]) && TopGroups(d[i..]);
    var top := d[i..];
    TopGroupsEnds(top);
    assert top[|top| - 1] == d[|d| - 1];
  }

  lemma WordNotSpace(c: char)
    requires IsWord(c)
    ensures !IsSpace(c)
  {
  }

  lemma TopGroupsTwoLevels()
    ensures TopGroups(".com.co")
  {
    var t := ".com.co";
    var co := t[4..];
    assert co == ".co";
    assert co[1..3] == "co";
    assert TopGroups(co);
    assert t[1..4] == "com";
    assert AllWord(t[1..4]);
  }

  lemma DomainOfDotted()
    ensures Domain("correo.com.co")
  {
    var d := "correo.com.co";
    assert d[..6] == "correo" && d[6..] == ".com.co";
    TopGroupsTwoLevels();
    assert SepWords(d[..6]);
  }

  /** An address assembled from a local part and a domain that match. */
  lemma FormatOfParts(local: string, domain: string)
    requires '@' !in local && SepWords(local) && Domain(domain)
    ensures EmailFormat(local + "@" + domain)
  {
    var e := local + "@" + domain;
    assert e[..|local|] == local && e[|local|] == '@';
    IndexOfPrefix(e, '@', |local|);
    assert e[|local| + 1..] == domain;
  }

  lemma LocalOfDotted()
    ensures '@' !in "ana.perez" && SepWords("ana.perez")
  {
  }

  /** A dotted address with a two-level top domain matches. */
  lemma DottedAddressAccepted()
    ensures EmailFormat("ana.perez@correo.com.co")
  {
    var e := "ana.perez@correo.com.co";
    var local, domain := "ana.perez", "correo.com.co";
    assert e == local + "@" + domain;
    LocalOfDotted();
    DomainOfDotted();
    FormatOfParts(local, domain);
  }

  /** A domain without a dotted ending does not match. */
  lemma MissingTopDomainRejected()
    ensures !EmailFormat("ana@correo")
  {
    var e := "ana@correo";
    assert IndexOf(e, '@') == 3;
    var d := e[4..];
    assert d == "correo";
    forall i | 0 < i < |d| ensures !TopGroups(d[i..]) {
      assert d[i..][0] == d[i];
    }
  }

  /** The pattern is tested on the untrimmed value: one with leading whitespace, such as ` ana@correo.com`, is rejected. */
  lemma LeadingSpaceRejected(e: string)
    requires e != [] && IsSpace(e[0])
    ensures !EmailFormat(e)
  {
    if '@' in e {
      var i := IndexOf(e, '@');
      assert i > 0 && e[..i][0] == e[0];
    }
  }
}
