/** `str.format(**values)` restricted to keyword fields: `{{` and `}}` stand for
    literal braces, `{name}` is replaced by `values[name]`. A name missing from
    `values` raises KeyError; an empty or all-digit name is a positional field, and
    with no positional arguments it raises IndexError; an unmatched brace raises
    ValueError. All three are `Err`. */
module Formatting {
  import opened Wrappers
  import opened Text

  datatype FormatError = MissingKey(name: string) | PositionalField(name: string) | UnmatchedBrace

  /** `{}` and `{0}`, `{12}`, …: a field that names a positional argument. */
  predicate Positional(name: string) {
    forall k :: 0 <= k < |name| ==> IsDigit(name[k])
  }

  /** The index of the '}' closing a field whose name starts at `k`; None when a
      '{' comes first or no '}' follows. */
  function FieldEnd(t: string, k: nat): (r: Option<nat>)
    requires k <= |t|
    ensures r.Some? ==> k <= r.value < |t| && t[r.value] == '}' && NoBraces(t[k..r.value])
    ensures r.None? ==> forall e :: k <= e < |t| && t[e] == '}' ==> !NoBraces(t[k..e])
    decreases |t| - k
  {
    if k == |t| || t[k] == '{' then None
    else if t[k] == '}' then Some(k)
    else
      var r := FieldEnd(t, k + 1);
      assert forall e :: k + 1 <= e <= |t| ==> t[k..e] == [t[k]] + t[k + 1..e];
      r
  }

  function Prepend(s: string, r: Result<string, FormatError>): Result<string, FormatError> {
    match r
    case Ok(x) => Ok(s + x)
    case Err(e) => Err(e)
  }

  /** `t.format(**values)`, scanning left to right; the first problem met is reported. */
  function Format(t: string, values: map<string, string>): Result<string, FormatError>
    decreases |t|
  {
    if t == [] then Ok("")
    else if t[0] == '{' then
      if |t| >= 2 && t[1] == '{' then Prepend("{", Format(t[2..], values))
      else match FieldEnd(t, 1)
        case None => Err(UnmatchedBrace)
        case Some(k) =>
          var name := t[1..k];
          if Positional(name) then Err(PositionalField(name))
          else if name in values then Prepend(values[name], Format(t[k + 1..], values))
          else Err(MissingKey(name))
    else if t[0] == '}' then
      if |t| >= 2 && t[1] == '}' then Prepend("}", Format(t[2..], values)) else Err(UnmatchedBrace)
    else Prepend([t[0]], Format(t[1..], values))
  }

  /** The field names of `t` in order of appearance, or None when its braces are unbalanced. */
  function Placeholders(t: string): Option<seq<string>>
    decreases |t|
  {
    if t == [] then Some([])
    else if t[0] == '{' then
      if |t| >= 2 && t[1] == '{' then Placeholders(t[2..])
      else match FieldEnd(t, 1)
        case None => None
        case Some(k) =>
          match Placeholders(t[k + 1..])
          case None => None
          case Some(rest) => Some([t[1..k]] + rest)
    else if t[0] == '}' then
      if |t| >= 2 && t[1] == '}' then Placeholders(t[2..]) else None
    else Placeholders(t[1..])
  }

  /** Formatting succeeds exactly when the braces are balanced and every field is a
      keyword field with a value. */
  lemma {:induction false} FormatSucceedsIff(t: string, values: map<string, string>)
    ensures Format(t, values).Ok? <==>
      (Placeholders(t).Some? && forall n :: n in Placeholders(t).value ==> n in values && !Positional(n))
    decreases |t|
  {
    if t == [] {
    } else if t[0] == '{' {
      if |t| >= 2 && t[1] == '{' {
        FormatSucceedsIff(t[2..], values);
      } else if FieldEnd(t, 1).Some? {
        var k := FieldEnd(t, 1).value;
        FormatSucceedsIff(t[k + 1..], values);
      }
    } else if t[0] == '}' {
      if |t| >= 2 && t[1] == '}' {
        FormatSucceedsIff(t[2..], values);
      }
    } else {
      FormatSucceedsIff(t[1..], values);
    }
  }

  /** Text without braces passes through unchanged, in front of whatever follows. */
  lemma {:induction false} FormatLiteralPrefix(pre: string, post: string, values: map<string, string>)
    requires NoBraces(pre)
    ensures Format(pre + post, values) == Prepend(pre, Format(post, values))
    decreases |pre|
  {
    if pre != [] {
      var t := pre + post;
      assert t[0] == pre[0] && t[1..] == pre[1..] + post;
      FormatLiteralPrefix(pre[1..], post, values);
      match Format(post, values)
      case Ok(x) => assert [pre[0]] + (pre[1..] + x) == pre + x;
      case Err(_) =>
    } else {
      assert pre + post == post;
      match Format(post, values)
      case Ok(x) => assert pre + x == x;
      case Err(_) =>
    }
  }

  /** A template without placeholders renders unchanged. */
  lemma NoPlaceholdersUnchanged(t: string, values: map<string, string>)
    requires NoBraces(t)
    ensures Format(t, values) == Ok(t)
  {
    FormatLiteralPrefix(t, "", values);
    assert t + "" == t;
  }

  /** A keyword field `{name}` is replaced by its value. */
  lemma FormatField(pre: string, name: string, post: string, values: map<string, string>)
    requires NoBraces(pre) && NoBraces(name) && name in values && !Positional(name)
    ensures Format(pre + "{" + name + "}" + post, values) == Prepend(pre + values[name], Format(post, values))
  {
    var field := "{" + name + "}" + post;
    assert pre + "{" + name + "}" + post == pre + field;
    FormatLiteralPrefix(pre, field, values);
    assert FieldEnd(field, 1) == Some(|name| + 1) by {
      assert field[1..|name| + 1] == name;
      FieldEndAt(field, 1, |name| + 1);
    }
    assert field[1..|name| + 1] == name;
    assert field[|name| + 2..] == post;
    match Format(post, values)
    case Ok(x) => assert pre + (values[name] + x) == (pre + values[name]) + x;
    case Err(_) =>
  }

  /** `{}` or `{0}` raises whatever keyword values are given, even one under the
      same name. */
  lemma PositionalFieldRaises(name: string, post: string, values: map<string, string>)
    requires Positional(name)
    ensures Format("{" + name + "}" + post, values) == Err(PositionalField(name))
  {
    var t := "{" + name + "}" + post;
    assert NoBraces(name) by {
      forall k | 0 <= k < |name| ensures name[k] != '{' && name[k] != '}' {
        assert IsDigit(name[k]);
      }
    }
    assert t[1..|name| + 1] == name;
    FieldEndAt(t, 1, |name| + 1);
  }

  lemma {:induction false} FieldEndAt(t: string, k: nat, e: nat)
    requires k <= e < |t| && t[e] == '}' && NoBraces(t[k..e])
    ensures FieldEnd(t, k) == Some(e)
    decreases e - k
  {
    if k < e {
      assert t[k] == t[k..e][0];
      assert t[k + 1..e] == t[k..e][1..];
      FieldEndAt(t, k + 1, e);
    }
  }
}
