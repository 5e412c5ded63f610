/**
 * The part of Python's str.format(**data) that request templates use: named replacement
 * fields, the escapes "{{" and "}}", and the errors format raises.
 */
module TemplateFormat {
  import opened Wrappers
  import opened Text
  import opened Values
  import Util

  /** The exceptions str.format raises on a template it cannot fill. */
  datatype FormatError =
    | MalformedTemplate              // ValueError: a lone '}', an unclosed '{', or '{' inside a field name
    | PositionalField(field: string) // IndexError: an automatic or numbered field, and no positional arguments
    | MissingKey(key: string)        // KeyError: a named field without a value

  /** The field names a positional argument: it is empty (automatic numbering) or a number. */
  predicate IsPositional(name: string)
  {
    forall i :: 0 <= i < |name| ==> '0' <= name[i] <= '9'
  }

  function Prepend(p: string, r: Result<string, FormatError>): Result<string, FormatError>
  {
    match r
    case Ok(s) => Ok(p + s)
    case Err(e) => Err(e)
  }

  /** template.format(**data). */
  function Format(t: string, data: map<string, Scalar>): (r: Result<string, FormatError>)
    ensures r.Err? && r.error.MissingKey? ==> r.error.key !in data
    ensures r.Err? && r.error.PositionalField? ==> IsPositional(r.error.field)
    decreases |t|
  {
    if t == [] then Ok([])
    else if t[0] == '{' then
      if |t| > 1 && t[1] == '{' then Prepend("{", Format(t[2..], data))
      else
        match NextClose(t, 1)
        case None => Err(MalformedTemplate)
        case Some(j) =>
          var name := t[1..j];
          if '{' in name then Err(MalformedTemplate)
          else if IsPositional(name) then Err(PositionalField(name))
          else if name !in data then Err(MissingKey(name))
          else Prepend(ScalarToString(data[name]), Format(t[j + 1..], data))
    else if t[0] == '}' then
      if |t| > 1 && t[1] == '}' then Prepend("}", Format(t[2..], data)) else Err(MalformedTemplate)
    else Prepend([t[0]], Format(t[1..], data))
  }

  /** Text without braces is copied to the output as it is. */
  lemma {:induction false} FormatPlainPrefix(p: string, rest: string, data: map<string, Scalar>)
    requires NoBraces(p)
    ensures Format(p + rest, data) == Prepend(p, Format(rest, data))
    decreases |p|
  {
    if p == [] {
      assert p + rest == rest;
      match Format(rest, data)
      case Ok(s) => assert p + s == s;
      case Err(_) =>
    } else {
      var t := p + rest;
      assert t[0] == p[0] && t[1..] == p[1..] + rest;
      assert NoBraces(p[1..]) by {
        forall i | 1 <= i < |p| ensures p[i] != '{' && p[i] != '}' { }
      }
      FormatPlainPrefix(p[1..], rest, data);
      match Format(rest, data)
      case Ok(s) => assert [p[0]] + (p[1..] + s) == p + s;
      case Err(_) =>
    }
  }

  /** A template without braces formats to itself, whatever the data. */
  lemma FormatPlain(t: string, data: map<string, Scalar>)
    requires NoBraces(t)
    ensures Format(t, data) == Ok(t)
  {
    FormatPlainPrefix(t, [], data);
    assert t + [] == t;
  }

  /** "{{" and "}}" stand for one brace each; a lone '}', or a '{' that no '}' closes, is a ValueError. */
  lemma FormatEscapes(rest: string, data: map<string, Scalar>)
    ensures Format("{{" + rest, data) == Prepend("{", Format(rest, data))
    ensures Format("}}" + rest, data) == Prepend("}", Format(rest, data))
    ensures (rest == [] || rest[0] != '}') ==> Format("}" + rest, data) == Err(MalformedTemplate)
    ensures (rest == [] || rest[0] != '{') && NoClose(rest) ==> Format("{" + rest, data) == Err(MalformedTemplate)
  {
    assert ("{{" + rest)[2..] == rest;
    assert ("}}" + rest)[2..] == rest;
    assert ("{" + rest)[1..] == rest;
  }

  /** A named field is replaced by the str() of its value, or fails with KeyError when the data lacks it. */
  lemma FormatField(name: string, rest: string, data: map<string, Scalar>)
    requires |name| > 0 && NoBraces(name) && !IsPositional(name)
    ensures Format("{" + name + "}" + rest, data)
         == if name in data then Prepend(ScalarToString(data[name]), Format(rest, data)) else Err(MissingKey(name))
  {
    var t := "{" + name + "}" + rest;
    assert t[1] == name[0];
    assert t[1..|name| + 1] == name;
    NextCloseAt(t, 1, |name| + 1);
    assert t[|name| + 2..] == rest;
  }

  /** An automatic or numbered field ("{}", "{0}") is the IndexError: format gets no positional arguments. */
  lemma FormatPositional(name: string, rest: string, data: map<string, Scalar>)
    requires NoBraces(name) && IsPositional(name)
    ensures Format("{" + name + "}" + rest, data) == Err(PositionalField(name))
  {
    var t := "{" + name + "}" + rest;
    assert |name| > 0 ==> t[1] == name[0];
    assert t[1..|name| + 1] == name;
    NextCloseAt(t, 1, |name| + 1);
  }

  /** A '{' inside a field name is the ValueError "unexpected '{' in field name". */
  lemma FormatBraceInName(name: string, rest: string, data: map<string, Scalar>)
    requires |name| > 0 && name[0] != '{' && '{' in name && NoClose(name)
    ensures Format("{" + name + "}" + rest, data) == Err(MalformedTemplate)
  {
    var t := "{" + name + "}" + rest;
    assert t[1] == name[0];
    assert t[1..|name| + 1] == name;
    NextCloseAt(t, 1, |name| + 1);
  }

  /**
   * A template with one placeholder between brace-free texts: the extractor finds exactly that
   * placeholder, and formatting succeeds exactly when the data has a value for it.
   */
  lemma SinglePlaceholderTemplate(p: string, name: string, s: string, data: map<string, Scalar>)
    requires NoBraces(p) && NoBraces(s) && |name| > 0 && NoBraces(name) && !IsPositional(name)
    ensures Util.FindAll(p + "{" + name + "}" + s) == [name]
    ensures Format(p + "{" + name + "}" + s, data).Ok? <==> name in data
    ensures name in data ==> Format(p + "{" + name + "}" + s, data) == Ok(p + ScalarToString(data[name]) + s)
  {
    var t := p + "{" + name + "}" + s;
    assert t == p + ("{" + name + "}" + s);
    Util.FindAllSkipsPlainPrefix(p, "{" + name + "}" + s);
    Util.FindAllPlaceholder(name, s);
    Util.FindAllSkipsPlainPrefix(s, []);
    assert s + [] == s;
    assert Util.FindAll([]) == [];
    FormatPlainPrefix(p, "{" + name + "}" + s, data);
    FormatField(name, s, data);
    FormatPlain(s, data);
    if name in data {
      assert p + (ScalarToString(data[name]) + s) == p + ScalarToString(data[name]) + s;
    }
  }
}
