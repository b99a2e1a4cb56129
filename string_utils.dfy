/** StringUtils.removeParam: cut the parameter list off a column type name such as NUMERIC(22,8). */
module StringUtils {
  import opened Wrappers
  import opened JavaString

  const OpenParen: char := '('
  const CloseParen: char := ')'

  /**
   * removeParam on a non-null type: when both parentheses occur, keep what precedes the first '(' and
   * what follows the first ')' (the two are not required to be in that order), then trim.
   */
  function StripParam(t: string): (r: string)
    ensures IsTrimmed(r)
    ensures OpenParen !in t || CloseParen !in t ==> r == Trim(t)
  {
    Trim(Unparam(t))
  }

  /** The string removeParam trims: t with the span from its first '(' to its first ')' cut out. */
  function Unparam(t: string): (dt: string)
    ensures OpenParen !in t || CloseParen !in t ==> dt == t
  {
    var open := IndexOf(t, OpenParen);
    var close := IndexOf(t, CloseParen);
    if open != -1 && close != -1 then t[..open] + t[close + 1..] else t
  }

  /** removeParam: null in, null out; otherwise StripParam. */
  function RemoveParam(t: Option<string>): (r: Option<string>)
    ensures r.None? <==> t.None?
    ensures r.Some? ==> IsTrimmed(r.value)
    ensures t.Some? && (OpenParen !in t.value || CloseParen !in t.value) ==> r == Some(Trim(t.value))
  {
    match t
    case None => None
    case Some(s) => Some(StripParam(s))
  }

  /**
   * The first parenthesised group is removed: whatever precedes it, joined to whatever follows its
   * closing parenthesis, trimmed. Later groups stay.
   */
  lemma {:induction false} StripFirstGroup(a: string, p: string, b: string)
    requires OpenParen !in a && CloseParen !in a && CloseParen !in p
    ensures StripParam(a + [OpenParen] + p + [CloseParen] + b) == Trim(a + b)
  {
    var t := a + [OpenParen] + p + [CloseParen] + b;
    var close := |a| + 1 + |p|;
    assert t[|a|] == OpenParen && t[..|a|] == a;
    IndexOfUnique(t, OpenParen, |a|);
    assert t[close] == CloseParen;
    assert t[..close] == a + [OpenParen] + p;
    IndexOfUnique(t, CloseParen, close);
    assert t[close + 1..] == b;
    UnparamAt(t, |a|, close);
  }

  /** Unfolds Unparam once the two parenthesis positions are known. */
  lemma UnparamAt(t: string, open: nat, close: nat)
    requires IndexOf(t, OpenParen) == open && IndexOf(t, CloseParen) == close
    ensures Unparam(t) == t[..open] + t[close + 1..]
  {
  }

  /** A trimmed type name without parentheses comes back unchanged. */
  lemma StripPlainName(t: string)
    requires IsTrimmed(t) && OpenParen !in t && CloseParen !in t
    ensures StripParam(t) == t
  {
    TrimTrimmed(t);
  }

  /** A parameter suffix is dropped: for a name t without parentheses, t + "(" + p + ")" strips to Trim(t), as t itself does. */
  lemma StripParamSuffix(t: string, p: string)
    requires OpenParen !in t && CloseParen !in t && CloseParen !in p
    ensures StripParam(t + [OpenParen] + p + [CloseParen]) == Trim(t)
  {
    StripFirstGroup(t, p, "");
    assert t + [OpenParen] + p + [CloseParen] + "" == t + [OpenParen] + p + [CloseParen];
    assert t + "" == t;
  }

  /** The same, for a type name that is already trimmed: the name itself comes back. */
  lemma StripTypeSuffix(t: string, name: string, p: string)
    requires t == name + [OpenParen] + p + [CloseParen]
    requires IsTrimmed(name) && OpenParen !in name && CloseParen !in name && CloseParen !in p
    ensures StripParam(t) == name
  {
    StripParamSuffix(name, p);
    TrimTrimmed(name);
  }

  /** A type name followed by a parameter list, as in NUMERIC(22,8). */
  function WithParams(name: string, params: string): (t: string)
    ensures |t| == |name| + |params| + 2
    ensures t[..|name|] == name && t[|name|] == OpenParen && t[|t| - 1] == CloseParen
  {
    name + [OpenParen] + params + [CloseParen]
  }

  /** Upper-casing a parameterised name upper-cases the name and the parameters. */
  lemma ToUpperWithParams(name: string, params: string)
    ensures ToUpper(WithParams(name, params)) == WithParams(ToUpper(name), ToUpper(params))
  {
    ToUpperAppend(name + [OpenParen] + params, [CloseParen]);
    ToUpperAppend(name + [OpenParen], params);
    ToUpperAppend(name, [OpenParen]);
  }

  /** An upper-cased parameterised name strips to the upper-cased name. */
  lemma StripUpperWithParams(name: string, params: string)
    requires IsTrimmed(name) && OpenParen !in name && CloseParen !in name && CloseParen !in params
    ensures StripParam(ToUpper(WithParams(name, params))) == ToUpper(name)
  {
    ToUpperWithParams(name, params);
    ToUpperTrimmed(name);
    ToUpperKeepsAbsent(name, OpenParen);
    ToUpperKeepsAbsent(name, CloseParen);
    ToUpperKeepsAbsent(params, CloseParen);
    StripTypeSuffix(ToUpper(WithParams(name, params)), ToUpper(name), ToUpper(params));
  }

  lemma StripNumericExample()
    ensures StripParam("NUMERIC(22,8)") == "NUMERIC"
  {
    StripTypeSuffix("NUMERIC(22,8)", "NUMERIC", "22,8");
  }

  lemma StripBlobExample()
    ensures StripParam("BLOB(1048576)") == "BLOB"
  {
    StripTypeSuffix("BLOB(1048576)", "BLOB", "1048576");
  }

  lemma StripFirstGroupTrimmed(t: string, a: string, p: string, b: string, ab: string)
    requires t == a + [OpenParen] + p + [CloseParen] + b && ab == a + b
    requires OpenParen !in a && CloseParen !in a && CloseParen !in p && IsTrimmed(ab)
    ensures StripParam(t) == ab
  {
    StripFirstGroup(a, p, b);
    TrimTrimmed(a + b);
  }

  /** Only the first group goes: a second parameter list survives one removal. */
  lemma StripOnlyFirstGroup()
    ensures StripParam("A(1)B(2)") == "AB(2)"
  {
    StripFirstGroupTrimmed("A(1)B(2)", "A", "1", "B(2)", "AB(2)");
  }

  /** ... so removing parameters is not idempotent: a second removal takes the next group. */
  lemma StripNotIdempotent()
    ensures StripParam("AB(2)") == "AB" != "AB(2)"
  {
    StripTypeSuffix("AB(2)", "AB", "2");
  }

  /**
   * When the first ')' precedes the first '(', the two kept slices overlap: the characters between
   * the parentheses appear twice and nothing is removed, so the string grows.
   */
  lemma UnparamMisordered(t: string)
    requires OpenParen in t && CloseParen in t && IndexOf(t, CloseParen) < IndexOf(t, OpenParen)
    ensures |Unparam(t)| == |t| + IndexOf(t, OpenParen) - IndexOf(t, CloseParen) - 1 >= |t|
  {
    UnparamAt(t, IndexOf(t, OpenParen), IndexOf(t, CloseParen));
  }

  lemma StripMisorderedParens()
    ensures StripParam("A)B(C") == "A)BB(C"
  {
    var t := "A)B(C";
    IndexOfUnique(t, OpenParen, 3);
    IndexOfUnique(t, CloseParen, 1);
    UnparamAt(t, 3, 1);
    assert t[..3] + t[2..] == "A)BB(C";
    TrimTrimmed("A)BB(C");
  }
}
