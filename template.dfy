/** Python's `str.format` restricted to what a page template uses: literal
    text, `{{` and `}}` escapes, and `{name}` fields filled from keyword
    arguments. A missing keyword, an empty (positional) field, a stray `}` or
    an unterminated `{` raise in Python and give None here. A field whose name
    is not a plain keyword (one with a conversion, a format specification,
    attribute or index access, or an all-digit positional index) also gives
    None: those are outside the model. */
module Template {
  import opened Wrappers
  import Text

  predicate NoBraces(s: string)
  {
    '{' !in s && '}' !in s
  }

  lemma NoBracesAppend(a: string, b: string)
    requires NoBraces(a) && NoBraces(b)
    ensures NoBraces(a + b)
  {
  }

  /** A field name that Python looks up as a keyword argument as a whole:
      non-empty, brace-free, without `.`, `[`, `!` or `:`, and not a
      positional index made of digits only. */
  predicate PlainFieldName(name: string)
  {
    && |name| > 0
    && NoBraces(name)
    && '.' !in name && '[' !in name && '!' !in name && ':' !in name
    && exists i :: 0 <= i < |name| && !Text.IsDigit(name[i])
  }

  /** The replacement field `{name}`. */
  function Field(name: string): string
  {
    "{" + name + "}"
  }

  function Prepend(s: string, rest: Option<string>): (r: Option<string>)
    ensures r.Some? <==> rest.Some?
  {
    match rest
    case Some(tail) => Some(s + tail)
    case None => None
  }

  /** Number of leading characters of `s` before the first brace. */
  function FieldLength(s: string): (n: nat)
    ensures n <= |s|
    ensures NoBraces(s[..n])
    ensures n < |s| ==> s[n] == '{' || s[n] == '}'
  {
    if |s| == 0 || s[0] == '{' || s[0] == '}' then 0
    else
      var n := 1 + FieldLength(s[1..]);
      assert s[..n] == [s[0]] + s[1..][..n - 1];
      n
  }

  function Format(t: string, kwargs: map<string, string>): Option<string>
    decreases |t|
  {
    if |t| == 0 then Some("")
    else if |t| > 1 && t[0] == '{' && t[1] == '{' then Prepend("{", Format(t[2..], kwargs))
    else if |t| > 1 && t[0] == '}' && t[1] == '}' then Prepend("}", Format(t[2..], kwargs))
    else if t[0] == '}' then None
    else if t[0] == '{' then
      var n := FieldLength(t[1..]);
      if n == 0 || n + 1 == |t| || t[n + 1] == '{' then None
      else if !PlainFieldName(t[1..n + 1]) then None
      else if t[1..n + 1] !in kwargs then None
      else Prepend(kwargs[t[1..n + 1]], Format(t[n + 2..], kwargs))
    else Prepend([t[0]], Format(t[1..], kwargs))
  }

  /** Text without braces is copied through unchanged. */
  lemma {:induction false} FormatLiteral(lit: string, rest: string, kwargs: map<string, string>)
    requires NoBraces(lit)
    ensures Format(lit + rest, kwargs) == Prepend(lit, Format(rest, kwargs))
  {
    if |lit| == 0 {
      assert lit + rest == rest;
      match Format(rest, kwargs) {
        case Some(tail) => assert lit + tail == tail;
        case None =>
      }
    } else {
      var t := lit + rest;
      assert t[0] == lit[0];
      assert t[1..] == lit[1..] + rest;
      assert lit[0] != '{' && lit[0] != '}';
      assert NoBraces(lit[1..]) by {
        forall i | 0 <= i < |lit[1..]| ensures lit[1..][i] != '{' && lit[1..][i] != '}' {
          assert lit[1..][i] == lit[i + 1];
        }
      }
      FormatLiteral(lit[1..], rest, kwargs);
      match Format(rest, kwargs) {
        case Some(tail) => assert [lit[0]] + (lit[1..] + tail) == lit + tail;
        case None =>
      }
    }
  }

  /** A field whose plain name is a keyword argument is replaced by that argument's value. */
  lemma FormatField(name: string, rest: string, kwargs: map<string, string>)
    requires PlainFieldName(name) && name in kwargs
    ensures Format(Field(name) + rest, kwargs) == Prepend(kwargs[name], Format(rest, kwargs))
  {
    var t := Field(name) + rest;
    assert t[0] == '{';
    assert t[1] == name[0];
    assert t[1..] == name + "}" + rest;
    FieldLengthOf(name, "}" + rest);
    assert t[1..|name| + 1] == name;
    assert t[|name| + 1] == '}';
    assert t[|name| + 2..] == rest;
  }

  lemma {:induction false} FieldLengthOf(name: string, rest: string)
    requires NoBraces(name)
    requires |rest| > 0 && (rest[0] == '{' || rest[0] == '}')
    ensures FieldLength(name + rest) == |name|
  {
    if |name| > 0 {
      var s := name + rest;
      assert s[0] == name[0];
      assert s[1..] == name[1..] + rest;
      assert NoBraces(name[1..]) by {
        forall i | 0 <= i < |name[1..]| ensures name[1..][i] != '{' && name[1..][i] != '}' {
          assert name[1..][i] == name[i + 1];
        }
      }
      FieldLengthOf(name[1..], rest);
    } else {
      assert name + rest == rest;
    }
  }

  /** A field whose name is not plain is not filled from the keywords. */
  lemma FormatNotPlain(name: string, rest: string, kwargs: map<string, string>)
    requires |name| > 0 && NoBraces(name) && !PlainFieldName(name)
    ensures Format(Field(name) + rest, kwargs) == None
  {
    var t := Field(name) + rest;
    assert t[0] == '{';
    assert t[1] == name[0];
    assert t[1..] == name + "}" + rest;
    FieldLengthOf(name, "}" + rest);
    assert t[1..|name| + 1] == name;
    assert t[|name| + 1] == '}';
  }

  lemma FormatNoBraces(lit: string, kwargs: map<string, string>)
    requires NoBraces(lit)
    ensures Format(lit, kwargs) == Some(lit)
  {
    FormatLiteral(lit, "", kwargs);
    assert lit + "" == lit;
  }
}
