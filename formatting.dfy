/** Python's `str.format` called with keyword arguments only, as the prompt
    composer uses it: `{name}` is replaced by the argument `name`, `{{` and
    `}}` stand for single braces, and the first problem met while scanning
    from left to right is raised.  Field names are taken literally between
    the braces. */
module Formatting {
  import opened Wrappers
  import opened Errors

  predicate IsDigit(c: char) { '0' <= c <= '9' }

  predicate NoBraces(t: string) { '{' !in t && '}' !in t }

  /** A field name that `str.format` resolves against positional arguments:
      the empty name `{}` or a number such as `{0}`. */
  predicate IsPositional(name: string) {
    forall i :: 0 <= i < |name| ==> IsDigit(name[i])
  }

  /** The first index at or after `k` holding a brace, or `|t|`. */
  function FieldEnd(t: string, k: nat): (e: nat)
    requires k <= |t|
    ensures k <= e <= |t|
    ensures NoBraces(t[k..e])
    ensures e < |t| ==> t[e] == '{' || t[e] == '}'
    decreases |t| - k
  {
    if k == |t| || t[k] == '{' || t[k] == '}' then k
    else
      var e := FieldEnd(t, k + 1);
      assert t[k..e] == [t[k]] + t[k + 1..e];
      e
  }

  function Prepend(p: string, r: Outcome<string>): (q: Outcome<string>)
    ensures q.Success? <==> r.Success?
    ensures r.Success? ==> q.value == p + r.value
    ensures r.Failure? ==> q == r
  {
    match r
    case Success(v) => Success(p + v)
    case Failure(e) => Failure(e)
  }

  /** `t.format(**vars)`. */
  function Fill(t: string, vars: map<string, string>): Outcome<string>
    decreases |t|
  {
    if |t| == 0 then Success("")
    else if t[0] == '{' then
      if |t| > 1 && t[1] == '{' then Prepend("{", Fill(t[2..], vars))
      else
        var e := FieldEnd(t, 1);
        if e == |t| then
          Failure(ValueError(if |t| == 1 then "Single '{' encountered in format string"
                             else "expected '}' before end of string"))
        else if t[e] == '{' then Failure(ValueError("unexpected '{' in field name"))
        else
          var name := t[1..e];
          if IsPositional(name) then Failure(IndexError("Replacement index out of range for positional args tuple"))
          else if name in vars then Prepend(vars[name], Fill(t[e + 1..], vars))
          else Failure(KeyError(name))
    else if t[0] == '}' then
      if |t| > 1 && t[1] == '}' then Prepend("}", Fill(t[2..], vars))
      else Failure(ValueError("Single '}' encountered in format string"))
    else Prepend([t[0]], Fill(t[1..], vars))
  }

  /** Text without braces is copied unchanged, whatever the arguments. */
  lemma {:induction false} FillLiteral(t: string, vars: map<string, string>)
    requires NoBraces(t)
    ensures Fill(t, vars) == Success(t)
    decreases |t|
  {
    if |t| > 0 {
      assert t[0] in t;
      assert forall c :: c in t[1..] ==> c in t;
      FillLiteral(t[1..], vars);
      assert [t[0]] + t[1..] == t;
    }
  }

  /** A brace-free literal in front of the rest is copied and the rest is
      filled on its own. */
  lemma {:induction false} FillLiteralThen(a: string, b: string, vars: map<string, string>)
    requires NoBraces(a)
    ensures Fill(a + b, vars) == Prepend(a, Fill(b, vars))
    decreases |a|
  {
    if |a| > 0 {
      var t := a + b;
      assert t[0] == a[0] && a[0] in a;
      assert forall c :: c in a[1..] ==> c in a;
      assert t[1..] == a[1..] + b;
      FillLiteralThen(a[1..], b, vars);
      assert Fill(t, vars) == Prepend([a[0]], Fill(t[1..], vars));
      match Fill(b, vars)
      case Success(v) =>
        assert [a[0]] + (a[1..] + v) == a + v;
      case Failure(_) =>
    } else {
      assert a + b == b;
      match Fill(b, vars)
      case Success(v) =>
        assert a + v == v;
      case Failure(_) =>
    }
  }

  /** A named field is replaced by its argument, which is not scanned again;
      a missing argument is a `KeyError` naming the field. */
  lemma FillField(name: string, b: string, vars: map<string, string>)
    requires NoBraces(name) && !IsPositional(name)
    ensures Fill("{" + name + "}" + b, vars) ==
      if name in vars then Prepend(vars[name], Fill(b, vars)) else Failure(KeyError(name))
  {
    var t := "{" + name + "}" + b;
    assert t[1..|name| + 1] == name;
    assert forall i :: 1 <= i <= |name| ==> t[i] == name[i - 1] && name[i - 1] in name;
    FieldEndAt(t, 1, |name| + 1);
    assert t[|name| + 2..] == b;
  }

  lemma {:induction false} FieldEndAt(t: string, k: nat, e: nat)
    requires k <= e < |t| && t[e] == '}'
    requires forall i :: k <= i < e ==> t[i] != '{' && t[i] != '}'
    ensures FieldEnd(t, k) == e
    decreases e - k
  {
    if k < e {
      FieldEndAt(t, k + 1, e);
    }
  }

  /** Whether filling succeeds depends only on which arguments are present,
      never on their values: argument text containing braces cannot make
      `format` fail. */
  lemma {:induction false} FillSuccessIgnoresValues(t: string, v1: map<string, string>, v2: map<string, string>)
    requires v1.Keys == v2.Keys
    ensures Fill(t, v1).Success? <==> Fill(t, v2).Success?
    ensures Fill(t, v1).Failure? ==> Fill(t, v1) == Fill(t, v2)
    decreases |t|
  {
    if |t| == 0 {
    } else if t[0] == '{' {
      if |t| > 1 && t[1] == '{' {
        FillSuccessIgnoresValues(t[2..], v1, v2);
      } else {
        var e := FieldEnd(t, 1);
        if e < |t| && t[e] == '}' {
          FillSuccessIgnoresValues(t[e + 1..], v1, v2);
        }
      }
    } else if t[0] == '}' {
      if |t| > 1 && t[1] == '}' {
        FillSuccessIgnoresValues(t[2..], v1, v2);
      }
    } else {
      FillSuccessIgnoresValues(t[1..], v1, v2);
    }
  }

  /** The replacement field `{name}`. */
  function Placeholder(name: string): string {
    "{" + name + "}"
  }

  /** Literal text, a named field and the rest: the literal is copied, the
      field replaced, and the rest filled on its own. */
  lemma FillFieldThen(a: string, name: string, rest: string, vars: map<string, string>)
    requires NoBraces(a) && NoBraces(name) && !IsPositional(name) && name in vars
    ensures Fill(a + Placeholder(name) + rest, vars) == Prepend(a + vars[name], Fill(rest, vars))
  {
    assert a + Placeholder(name) + rest == a + ("{" + name + "}" + rest);
    FillLiteralThen(a, "{" + name + "}" + rest, vars);
    FillField(name, rest, vars);
    match Fill(rest, vars)
    case Success(v) =>
      assert a + (vars[name] + v) == a + vars[name] + v;
    case Failure(_) =>
  }
}
