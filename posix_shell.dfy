/** Quote removal for one shell word, after POSIX.1-2017 Shell Command Language, sections
    2.2.1 (escape character), 2.2.2 (single quotes) and 2.2.3 (double quotes). It is the
    reference the output formats of the command line are read against: the words `eval` and
    `source` would see. A word the model does not cover (one that would need an expansion,
    ends the word early or leaves a quote open) yields `None`. */
module PosixShell {
  import opened Wrappers

  /** Where the reader of a word stands: outside quotes, inside '…', or inside "…". */
  datatype Mode = Plain | Single | Double

  /** Unquoted characters that end a word, start an expansion or are otherwise special in
      section 2.2; `#` and `~` are counted everywhere, which errs on the side of `None`. */
  predicate IsSpecial(c: char)
  {
    c in " \t\n|&;<>()$`*?[#~"
  }

  /** A character that stands for itself outside quotes. */
  predicate IsOrdinary(c: char)
  {
    !IsSpecial(c) && c != '\'' && c != '"' && c != '\\'
  }

  /** Inside double quotes a backslash escapes only these characters (and newline). */
  predicate EscapableInDouble(c: char)
  {
    c == '$' || c == '`' || c == '"' || c == '\\'
  }

  /** `c` in front of a result, failures passed through. */
  function Prepend(c: char, o: Option<string>): (r: Option<string>)
    ensures r.Some? <==> o.Some?
    ensures r.Some? ==> r.value == [c] + o.value
  {
    if o.Some? then Some([c] + o.value) else None
  }

  /** `p` in front of a result, failures passed through. */
  function Then(p: string, o: Option<string>): (r: Option<string>)
    ensures r.Some? <==> o.Some?
    ensures r.Some? ==> r.value == p + o.value
  {
    if o.Some? then Some(p + o.value) else None
  }

  /** A character put in front of a prefixed result lengthens the prefix. */
  lemma PrependThen(c: char, p: string, o: Option<string>)
    ensures Prepend(c, Then(p, o)) == Then([c] + p, o)
  {
    if o.Some? {
      assert [c] + (p + o.value) == ([c] + p) + o.value;
    }
  }

  /** An empty prefix leaves a result as it is. */
  lemma ThenEmpty(o: Option<string>)
    ensures Then([], o) == o
  {
    if o.Some? {
      assert [] + o.value == o.value;
    }
  }

  /** The characters a word stands for once its quotes are removed, reading `w` in mode `m`. */
  function Dequote(w: string, m: Mode): Option<string>
    decreases |w|
  {
    if w == [] then (if m == Plain then Some("") else None)
    else
      var c, rest := w[0], w[1..];
      match m
      case Single =>
        if c == '\'' then Dequote(rest, Plain) else Prepend(c, Dequote(rest, Single))
      case Double =>
        if c == '"' then Dequote(rest, Plain)
        else if c == '\\' then
          if rest == [] then None
          else if EscapableInDouble(rest[0]) then Prepend(rest[0], Dequote(rest[1..], Double))
          else if rest[0] == '\n' then Dequote(rest[1..], Double)
          else Prepend('\\', Dequote(rest, Double))
        else if c == '$' || c == '`' then None
        else Prepend(c, Dequote(rest, Double))
      case Plain =>
        if c == '\'' then Dequote(rest, Single)
        else if c == '"' then Dequote(rest, Double)
        else if c == '\\' then
          if rest == [] then None
          else if rest[0] == '\n' then Dequote(rest[1..], Plain)
          else Prepend(rest[0], Dequote(rest[1..], Plain))
        else if IsSpecial(c) then None
        else Prepend(c, Dequote(rest, Plain))
  }

  /** Ordinary characters read outside quotes stand for themselves. */
  lemma {:induction false} OrdinaryPrefix(p: string, rest: string)
    requires forall i :: 0 <= i < |p| ==> IsOrdinary(p[i])
    ensures Dequote(p + rest, Plain) == Then(p, Dequote(rest, Plain))
  {
    if p != [] {
      var w := p + rest;
      assert w[0] == p[0] && w[1..] == p[1..] + rest;
      assert IsOrdinary(p[0]);
      assert Dequote(w, Plain) == Prepend(p[0], Dequote(p[1..] + rest, Plain));
      OrdinaryPrefix(p[1..], rest);
      var o := Dequote(rest, Plain);
      if o.Some? {
        assert [p[0]] + (p[1..] + o.value) == p + o.value;
      }
    } else {
      assert p + rest == rest;
      var o := Dequote(rest, Plain);
      if o.Some? {
        assert p + o.value == o.value;
      }
    }
  }
}
