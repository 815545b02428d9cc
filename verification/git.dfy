/**
 * doxygen_whiner/git.py: the `Person` record, `WarningWithCulprit`, the
 * argument list of the `git blame` query for one warning, and the extraction
 * of the author's name and e-mail address from the query's porcelain output.
 */
module Git {
  import opened Wrappers
  import opened Utils
  import opened Warnings
  import opened Decimal

  // ---------------------------------------------------------------- Person

  const NameAttr := Descriptor("name", StrType)
  const EmailAttr := Descriptor("email", StrType)

  /** The instance dictionary of a constructed `Person`. */
  function PersonAttrs(name: Value, email: Value): (attrs: map<string, Value>)
  {
    map["name" := name, "email" := email]
  }

  /** An object whose `name` and `email` attributes are present and are strings. */
  predicate IsPerson(p: Instance)
    reads p
  {
    HasTyped(p.attrs, NameAttr) && HasTyped(p.attrs, EmailAttr)
  }

  /** `Person(name, email)`: `name` is checked first, then `email`. */
  method NewPerson(name: Value, email: Value) returns (r: Result<Instance, TypeError>)
    ensures r.Success? <==> IsInstance(name, StrType) && IsInstance(email, StrType)
    ensures r.Failure? ==>
      r.error == if !IsInstance(name, StrType) then TypeError(name, StrType) else TypeError(email, StrType)
    ensures r.Success? ==> fresh(r.value) && r.value.attrs == PersonAttrs(name, email) && IsPerson(r.value)
  {
    var p := new Instance();
    var o := Set(NameAttr, p, name);
    if o.Fail? {
      return Failure(o.error);
    }
    o := Set(EmailAttr, p, email);
    if o.Fail? {
      return Failure(o.error);
    }
    return Success(p);
  }

  /** `Person.__eq__`: both attributes, read through their descriptors, are equal. */
  function PersonEq(p: Instance, q: Instance): (r: bool)
    reads p, q
    requires IsPerson(p) && IsPerson(q)
    ensures r <==> Get(NameAttr, p) == Get(NameAttr, q) && Get(EmailAttr, p) == Get(EmailAttr, q)
  {
    p.attrs["name"] == q.attrs["name"] && p.attrs["email"] == q.attrs["email"]
  }

  /** `Person.__ne__`, defined as `not self == other`. */
  function PersonNe(p: Instance, q: Instance): (r: bool)
    reads p, q
    requires IsPerson(p) && IsPerson(q)
    ensures r <==> Get(NameAttr, p) != Get(NameAttr, q) || Get(EmailAttr, p) != Get(EmailAttr, q)
  {
    !PersonEq(p, q)
  }

  /**
   * Two persons built from strings are equal exactly when their names are
   * equal and their e-mail addresses are equal, whether or not they are the
   * same object.
   */
  lemma PersonEqOfConstructed(p: Instance, q: Instance, n1: string, e1: string, n2: string, e2: string)
    requires p.attrs == PersonAttrs(Str(n1), Str(e1)) && q.attrs == PersonAttrs(Str(n2), Str(e2))
    ensures IsPerson(p) && IsPerson(q)
    ensures PersonEq(p, q) <==> n1 == n2 && e1 == e2
    ensures PersonNe(p, q) <==> n1 != n2 || e1 != e2
  {
  }

  /** `Person.__eq__` is an equivalence relation on persons. */
  lemma PersonEqIsEquivalence(p: Instance, q: Instance, s: Instance)
    requires IsPerson(p) && IsPerson(q) && IsPerson(s)
    ensures PersonEq(p, p)
    ensures PersonEq(p, q) ==> PersonEq(q, p)
    ensures PersonEq(p, q) && PersonEq(q, s) ==> PersonEq(p, s)
  {
  }

  // ---------------------------------------------------- WarningWithCulprit

  /** The plain (unchecked) attribute that `WarningWithCulprit` adds. */
  const CulpritKey := "culprit"

  /** The object held by the `culprit` attribute, if any. */
  function CulpritOf(w: Instance): (objs: set<Instance>)
    reads w
  {
    if CulpritKey in w.attrs && w.attrs[CulpritKey].Obj? then {w.attrs[CulpritKey].ref} else {}
  }

  /** A well-typed warning whose `culprit` attribute holds a well-typed person. */
  predicate IsWarningWithCulprit(w: Instance)
    reads w, CulpritOf(w)
  {
    IsWarning(w) && CulpritKey in w.attrs && w.attrs[CulpritKey].Obj? && IsPerson(w.attrs[CulpritKey].ref)
  }

  /**
   * `WarningWithCulprit(warning, culprit)`: copies the warning's instance
   * dictionary, then sets `culprit`, which is not type-checked.
   */
  method NewWarningWithCulprit(warning: Instance, culprit: Value) returns (r: Instance)
    ensures fresh(r)
    ensures r.attrs == warning.attrs[CulpritKey := culprit]
    ensures Get(FileAttr, r) == Get(FileAttr, warning)
    ensures Get(LineAttr, r) == Get(LineAttr, warning)
    ensures Get(TextAttr, r) == Get(TextAttr, warning)
    ensures IsWarning(warning) && culprit.Obj? && IsPerson(culprit.ref) ==> IsWarningWithCulprit(r)
  {
    r := new Instance();
    r.attrs := r.attrs + warning.attrs;
    r.attrs := r.attrs[CulpritKey := culprit];
  }

  // ------------------------------------------------------ the blame query

  /**
   * `'{0},{0}'.format(line)`. An `int` line gives the one-line range `N,N`;
   * a `bool` line, which the `line` attribute accepts, is formatted as
   * `True,True` or `False,False`, which is no range at all.
   */
  function LineRange(line: Value): (range: string)
    requires IsInstance(line, IntType)
    ensures line.Int? ==> ParseRange(range) == Some((line.i, line.i))
    ensures line.Bool? ==> ParseRange(range) == None
  {
    var n := if line.Int? then IntToString(line.i) else if line.b then "True" else "False";
    PairAtComma(n, n);
    assert line.Int? ==> ParseInt(n) == Some(line.i) by {
      if line.Int? {
        IntToStringRoundTrip(line.i);
      }
    }
    assert line.Bool? ==> ParseInt(n) == None by {
      if line.Bool? {
        assert !IsDigit(n[0]);
      }
    }
    n + "," + n
  }

  /** The argument list of the `git blame` invocation for a warning. */
  function BlameArgs(warning: Instance): (args: seq<string>)
    reads warning
    requires IsWarning(warning)
    ensures |args| == 6
    ensures ParseRange(args[4]).Some? <==> warning.attrs["line"].Int?
  {
    ["git", "blame", warning.attrs["file"].s, "-L", LineRange(warning.attrs["line"]), "--porcelain"]
  }

  /** The first position of `s` whose element satisfies `p`, or `|s|` when there is none. */
  function FirstWhere<T>(s: seq<T>, p: T -> bool): (k: nat)
    ensures k <= |s|
    ensures k < |s| ==> p(s[k])
    ensures forall j :: 0 <= j < k ==> !p(s[j])
  {
    if s == [] then 0 else if p(s[0]) then 0 else 1 + FirstWhere(s[1..], p)
  }

  predicate IsComma(c: char)
  {
    c == ','
  }

  /** `FirstWhere` finds the first satisfying position and no other. */
  lemma FirstWhereIs<T>(s: seq<T>, p: T -> bool, k: nat)
    requires k < |s| && p(s[k])
    requires forall j :: 0 <= j < k ==> !p(s[j])
    ensures FirstWhere(s, p) == k
  {
  }

  /**
   * An `-L start,end` argument read as two decimal integers around its
   * first comma. This is the model's reading of the argument; which ranges
   * the blame tool itself accepts is not part of this model.
   */
  function ParseRange(arg: string): (r: Option<(int, int)>)
  {
    var k := FirstWhere(arg, IsComma);
    if k == |arg| then None
    else
      match (ParseInt(arg[..k]), ParseInt(arg[k + 1..]))
      case (Some(start), Some(end)) => Some((start, end))
      case _ => None
  }

  /** With a comma-free first part, `a + "," + b` splits at the comma between the two. */
  lemma PairAtComma(a: string, b: string)
    requires ',' !in a
    ensures var arg := a + "," + b; var k := FirstWhere(arg, IsComma);
      k == |a| && arg[..k] == a && arg[k + 1..] == b
  {
    var arg := a + "," + b;
    assert IsComma(arg[|a|]);
    assert forall j :: 0 <= j < |a| ==> arg[j] == a[j];
    FirstWhereIs(arg, IsComma, |a|);
  }

  /**
   * The query blames `warning.file` in porcelain mode over the range `N,N`,
   * which reads back as the single line `N` of the warning.
   */
  lemma BlameQueriesOneLine(warning: Instance)
    requires IsWarning(warning) && warning.attrs["line"].Int?
    ensures var args := BlameArgs(warning);
      && args[..4] == ["git", "blame", warning.attrs["file"].s, "-L"]
      && args[5] == "--porcelain"
      && ParseRange(args[4]) == Some((warning.attrs["line"].i, warning.attrs["line"].i))
  {
    assert BlameArgs(warning)[4] == LineRange(warning.attrs["line"]);
  }

  // --------------------------------------------------- porcelain parsing

  predicate IsNewline(c: char)
  {
    c == '\n'
  }

  /** Lines joined with a newline between each two. */
  function JoinLines(lines: seq<string>): (s: string)
    requires |lines| > 0
  {
    if |lines| == 1 then lines[0] else lines[0] + "\n" + JoinLines(lines[1..])
  }

  /**
   * The lines a multi-line regular expression sees: `^` matches at the start
   * of each, `$` at its end, and `.` never crosses a newline.
   */
  function SplitLines(s: string): (lines: seq<string>)
    ensures |lines| > 0
    ensures forall i :: 0 <= i < |lines| ==> '\n' !in lines[i]
    ensures JoinLines(lines) == s
    decreases |s|
  {
    var k := FirstWhere(s, IsNewline);
    if k == |s| then [s]
    else
      var rest := SplitLines(s[k + 1..]);
      assert ([s[..k]] + rest)[1..] == rest;
      assert s == s[..k] + "\n" + s[k + 1..];
      [s[..k]] + rest
  }

  /** Splitting undoes joining, for lines that hold no newline. */
  lemma {:induction false} SplitJoin(lines: seq<string>)
    requires |lines| > 0
    requires forall i :: 0 <= i < |lines| ==> '\n' !in lines[i]
    ensures SplitLines(JoinLines(lines)) == lines
    decreases |lines|
  {
    var s := JoinLines(lines);
    var k := FirstWhere(s, IsNewline);
    if |lines| > 1 {
      var first := lines[0];
      var rest := JoinLines(lines[1..]);
      assert s == first + "\n" + rest;
      assert IsNewline(s[|first|]);
      assert k == |first|;
      assert s[..k] == first && s[k + 1..] == rest;
      SplitJoin(lines[1..]);
      assert lines == [first] + lines[1..];
    }
  }

  const AuthorPrefix := "author "
  const AuthorMailPrefix := "author-mail <"

  /** A line that `^author (.*)$` matches. */
  predicate IsAuthorLine(line: string)
  {
    |AuthorPrefix| <= |line| && line[..|AuthorPrefix|] == AuthorPrefix
  }

  /** A line that `^author-mail <(.*)>$` matches: the prefix, and `>` as the line's last character. */
  predicate IsAuthorMailLine(line: string)
  {
    |AuthorMailPrefix| < |line| && line[..|AuthorMailPrefix|] == AuthorMailPrefix && line[|line| - 1] == '>'
  }

  /** Group 1 of `^author (.*)$` on a line it matches. */
  function NameOf(line: string): (name: string)
    requires IsAuthorLine(line)
    ensures line == AuthorPrefix + name
  {
    line[|AuthorPrefix|..]
  }

  /** Group 1 of `^author-mail <(.*)>$` on a line it matches. */
  function MailOf(line: string): (email: string)
    requires IsAuthorMailLine(line)
    ensures line == AuthorMailPrefix + email + ">"
  {
    line[|AuthorMailPrefix|..|line| - 1]
  }

  /** The text after `author ` on the first line that starts with it. */
  function NameIn(lines: seq<string>): (r: Option<string>)
    ensures r.None? <==> forall i :: 0 <= i < |lines| ==> !IsAuthorLine(lines[i])
    ensures r.Some? ==> exists i :: 0 <= i < |lines| && lines[i] == AuthorPrefix + r.value
                                    && forall j :: 0 <= j < i ==> !IsAuthorLine(lines[j])
  {
    var k := FirstWhere(lines, IsAuthorLine);
    assert k < |lines| ==> IsAuthorLine(lines[k]);
    if k == |lines| then None else Some(NameOf(lines[k]))
  }

  /** The text between `author-mail <` and the final `>` on the first line of that shape. */
  function EmailIn(lines: seq<string>): (r: Option<string>)
    ensures r.None? <==> forall i :: 0 <= i < |lines| ==> !IsAuthorMailLine(lines[i])
    ensures r.Some? ==> exists i :: 0 <= i < |lines| && lines[i] == AuthorMailPrefix + r.value + ">"
                                    && forall j :: 0 <= j < i ==> !IsAuthorMailLine(lines[j])
  {
    var k := FirstWhere(lines, IsAuthorMailLine);
    assert k < |lines| ==> IsAuthorMailLine(lines[k]);
    if k == |lines| then None else Some(MailOf(lines[k]))
  }

  /** Group 1 of the first match of `^author (.*)$` in the blame output. */
  function ExtractName(output: string): (r: Option<string>)
    ensures var lines := SplitLines(output);
      r.None? <==> forall i :: 0 <= i < |lines| ==> !IsAuthorLine(lines[i])
    ensures var lines := SplitLines(output);
      r.Some? ==> exists i :: 0 <= i < |lines| && lines[i] == AuthorPrefix + r.value
                              && forall j :: 0 <= j < i ==> !IsAuthorLine(lines[j])
  {
    var lines := SplitLines(output);
    assert lines == SplitLines(output);
    NameIn(lines)
  }

  /** Group 1 of the first match of `^author-mail <(.*)>$` in the blame output. */
  function ExtractEmail(output: string): (r: Option<string>)
    ensures var lines := SplitLines(output);
      r.None? <==> forall i :: 0 <= i < |lines| ==> !IsAuthorMailLine(lines[i])
    ensures var lines := SplitLines(output);
      r.Some? ==> exists i :: 0 <= i < |lines| && lines[i] == AuthorMailPrefix + r.value + ">"
                              && forall j :: 0 <= j < i ==> !IsAuthorMailLine(lines[j])
  {
    var lines := SplitLines(output);
    assert lines == SplitLines(output);
    EmailIn(lines)
  }

  /** `search(...).group(1)` on a failed search raises; which search failed. */
  datatype BlameError = NoAuthorMatch | NoAuthorMailMatch

  /** The author's name and e-mail address; the name is searched for first. */
  function ExtractAuthor(output: string): (r: Result<(string, string), BlameError>)
    ensures r.Success? <==> ExtractName(output).Some? && ExtractEmail(output).Some?
    ensures r.Success? ==> r.value == (ExtractName(output).value, ExtractEmail(output).value)
    ensures r == Failure(NoAuthorMatch) <==> ExtractName(output).None?
  {
    match ExtractName(output)
    case None => Failure(NoAuthorMatch)
    case Some(name) =>
      match ExtractEmail(output)
      case None => Failure(NoAuthorMailMatch)
      case Some(email) => Success((name, email))
  }

  /**
   * The lines `author-mail ...`, `author-time ...` and `author-tz ...` are
   * not `author ` lines: a space must follow the word.
   */
  lemma OtherAuthorFieldsAreNotNames(rest: string)
    ensures !IsAuthorLine("author-mail" + rest)
    ensures !IsAuthorLine("author-time" + rest)
    ensures !IsAuthorLine("author-tz" + rest)
  {
    assert ("author-mail" + rest)[6] == '-';
    assert ("author-time" + rest)[6] == '-';
    assert ("author-tz" + rest)[6] == '-';
  }

  /**
   * Porcelain output names the author on the line after the commit header
   * and the author's address on the line after that; the name and address
   * on those lines are the ones extracted, whatever follows.
   */
  lemma PorcelainAuthor(header: string, name: string, email: string, rest: seq<string>)
    requires '\n' !in header && '\n' !in name && '\n' !in email
    requires forall i :: 0 <= i < |rest| ==> '\n' !in rest[i]
    requires !IsAuthorLine(header) && !IsAuthorMailLine(header)
    ensures ExtractAuthor(JoinLines([header, AuthorPrefix + name, AuthorMailPrefix + email + ">"] + rest))
            == Success((name, email))
  {
    var nameLine, mailLine := AuthorPrefix + name, AuthorMailPrefix + email + ">";
    AuthorLineOf(name);
    AuthorMailLineOf(email);
    var lines := [header, nameLine, mailLine] + rest;
    AuthorLinesFirst(header, nameLine, mailLine, rest);
    NameFromLines(lines, 1);
    EmailFromLines(lines, 2);
  }

  /** The name comes from line `k` when it is the first `author ` line. */
  lemma NameFromLines(lines: seq<string>, k: nat)
    requires forall i :: 0 <= i < |lines| ==> '\n' !in lines[i]
    requires k < |lines| && IsAuthorLine(lines[k])
    requires forall j :: 0 <= j < k ==> !IsAuthorLine(lines[j])
    ensures ExtractName(JoinLines(lines)) == Some(NameOf(lines[k]))
  {
    SplitJoin(lines);
    FirstWhereIs(lines, IsAuthorLine, k);
    assert NameIn(lines) == Some(NameOf(lines[k]));
  }

  /** The address comes from line `k` when it is the first `author-mail <...>` line. */
  lemma EmailFromLines(lines: seq<string>, k: nat)
    requires forall i :: 0 <= i < |lines| ==> '\n' !in lines[i]
    requires k < |lines| && IsAuthorMailLine(lines[k])
    requires forall j :: 0 <= j < k ==> !IsAuthorMailLine(lines[j])
    ensures ExtractEmail(JoinLines(lines)) == Some(MailOf(lines[k]))
  {
    SplitJoin(lines);
    FirstWhereIs(lines, IsAuthorMailLine, k);
    assert EmailIn(lines) == Some(MailOf(lines[k]));
  }

  /**
   * A header line that is neither kind of author line, then a name line and
   * an address line: those two are the first of their kind.
   */
  lemma AuthorLinesFirst(a: string, b: string, c: string, rest: seq<string>)
    requires '\n' !in a && '\n' !in b && '\n' !in c
    requires forall i :: 0 <= i < |rest| ==> '\n' !in rest[i]
    requires !IsAuthorLine(a) && !IsAuthorMailLine(a)
    requires IsAuthorLine(b) && !IsAuthorMailLine(b) && IsAuthorMailLine(c)
    ensures var lines := [a, b, c] + rest;
      && (forall i :: 0 <= i < |lines| ==> '\n' !in lines[i])
      && lines[1] == b && lines[2] == c
      && (forall j :: 0 <= j < 1 ==> !IsAuthorLine(lines[j]))
      && (forall j :: 0 <= j < 2 ==> !IsAuthorMailLine(lines[j]))
  {
  }

  /** `author <name>` is a name line, not an address line, and yields `name`. */
  lemma AuthorLineOf(name: string)
    ensures var line := AuthorPrefix + name;
      IsAuthorLine(line) && !IsAuthorMailLine(line) && NameOf(line) == name
    ensures '\n' !in name ==> '\n' !in AuthorPrefix + name
  {
    var line := AuthorPrefix + name;
    assert line[..|AuthorPrefix|] == AuthorPrefix;
    assert line[6] == ' ';
    assert '\n' !in AuthorPrefix;
  }

  /** `author-mail <email>` is an address line and yields `email`. */
  lemma AuthorMailLineOf(email: string)
    ensures var line := AuthorMailPrefix + email + ">";
      IsAuthorMailLine(line) && MailOf(line) == email
    ensures '\n' !in email ==> '\n' !in AuthorMailPrefix + email + ">"
  {
  }

  /**
   * `create_warning_with_culprit(warning)` once the blame query has produced
   * `blameOutput`: extract the author, build the `Person`, attach it.
   */
  method CreateWarningWithCulprit(warning: Instance, blameOutput: string) returns (r: Result<Instance, BlameError>)
    ensures r.Success? <==> ExtractAuthor(blameOutput).Success?
    ensures r.Failure? ==> r.error == ExtractAuthor(blameOutput).error
    ensures r.Success? ==>
      && fresh(r.value)
      && CulpritKey in r.value.attrs && r.value.attrs[CulpritKey].Obj?
      && fresh(r.value.attrs[CulpritKey].ref)
      && r.value.attrs[CulpritKey].ref.attrs
           == PersonAttrs(Str(ExtractAuthor(blameOutput).value.0), Str(ExtractAuthor(blameOutput).value.1))
      && r.value.attrs == warning.attrs[CulpritKey := r.value.attrs[CulpritKey]]
    ensures r.Success? && IsWarning(warning) ==> IsWarningWithCulprit(r.value)
  {
    var author := ExtractAuthor(blameOutput);
    if author.Failure? {
      return Failure(author.error);
    }
    var person := NewPerson(Str(author.value.0), Str(author.value.1));
    if person.Failure? {
      assert false;
    }
    var w := NewWarningWithCulprit(warning, Obj(person.value));
    return Success(w);
  }
}
