/**
 * The print and println builtins (wabuildin/print.go): the text they write
 * is each argument's ToString in order; println separates the arguments by
 * one space and ends the line, print does neither. The write to standard
 * output is modelled by returning the text.
 */
module WaBuiltin {
  import opened Values

  /** parts with sep between each two consecutive ones. */
  function Join(parts: seq<string>, sep: string): string
    decreases |parts|
  {
    if |parts| == 0 then "" else if |parts| == 1 then parts[0] else parts[0] + sep + Join(parts[1..], sep)
  }

  /** The ToString text of every argument, in argument order. */
  function Texts(args: seq<Value>): (ts: seq<string>)
    ensures |ts| == |args| && forall i :: 0 <= i < |args| ==> ts[i] == ToString(args[i])
  {
    seq(|args|, i requires 0 <= i < |args| => ToString(args[i]))
  }

  /** What the builtin writes: println is the space-separated texts and a newline, print the bare texts. */
  function PrintText(ln: bool, args: seq<Value>): string {
    Join(Texts(args), if ln then " " else "") + (if ln then "\n" else "")
  }

  lemma {:induction false} JoinSnoc(parts: seq<string>, x: string, sep: string)
    ensures Join(parts + [x], sep) == if |parts| == 0 then x else Join(parts, sep) + sep + x
    decreases |parts|
  {
    if |parts| >= 2 {
      assert (parts + [x])[1..] == parts[1..] + [x];
      JoinSnoc(parts[1..], x, sep);
    } else if |parts| == 1 {
      assert (parts + [x])[1..] == [x];
    }
  }

  /** Print(fn, args): the text written and the nil result. */
  method Print(name: string, args: seq<Value>) returns (text: string, r: Value)
    ensures text == PrintText(name == "println", args)
    ensures r == Nil
  {
    var ln := name == "println";
    var sep := if ln then " " else "";
    var buf := "";
    for i := 0 to |args|
      invariant buf == Join(Texts(args[..i]), sep)
    {
      TextsSnoc(args, i);
      JoinSnoc(Texts(args[..i]), ToString(args[i]), sep);
      if i > 0 && ln {
        buf := buf + " ";
      } else if i > 0 {
        assert buf + sep == buf;
      } else {
        assert buf + ToString(args[i]) == ToString(args[i]);
      }
      buf := buf + ToString(args[i]);
    }
    assert args[..|args|] == args;
    if ln {
      buf := buf + "\n";
    }
    text := buf;
    r := Nil;
  }

  /** With no arguments println writes just a newline and print writes nothing. */
  lemma PrintNoArgs()
    ensures PrintText(true, []) == "\n" && PrintText(false, []) == ""
  {
  }

  /** println: the first argument's text, one space, and the line for the rest. */
  lemma PrintlnCons(a: Value, rest: seq<Value>)
    requires |rest| > 0
    ensures PrintText(true, [a] + rest) == ToString(a) + " " + PrintText(true, rest)
  {
    assert Texts([a] + rest)[1..] == Texts(rest);
  }

  /** print writes the texts back to back, so printing a + b is printing a, then b. */
  lemma PrintConcat(a: seq<Value>, b: seq<Value>)
    ensures PrintText(false, a + b) == PrintText(false, a) + PrintText(false, b)
  {
    TextsConcat(a, b);
    JoinEmptySepConcat(Texts(a), Texts(b));
  }

  lemma TextsSnoc(args: seq<Value>, i: nat)
    requires i < |args|
    ensures Texts(args[..i + 1]) == Texts(args[..i]) + [ToString(args[i])]
  {
    assert args[..i + 1] == args[..i] + [args[i]];
    TextsConcat(args[..i], [args[i]]);
  }

  lemma TextsConcat(a: seq<Value>, b: seq<Value>)
    ensures Texts(a + b) == Texts(a) + Texts(b)
  {
    var l, r := Texts(a + b), Texts(a) + Texts(b);
    assert |l| == |r|;
    forall i | 0 <= i < |a + b|
      ensures l[i] == r[i]
    {
      if i < |a| {
        assert l[i] == ToString(a[i]) == Texts(a)[i];
      } else {
        assert l[i] == ToString(b[i - |a|]) == Texts(b)[i - |a|];
      }
    }
  }

  lemma {:induction false} JoinEmptySepConcat(p: seq<string>, q: seq<string>)
    ensures Join(p + q, "") == Join(p, "") + Join(q, "")
    decreases |p|
  {
    if |p| == 0 {
      assert p + q == q;
    } else if |p| == 1 && |q| == 0 {
      assert p + q == p;
    } else {
      assert (p + q)[1..] == p[1..] + q;
      JoinEmptySepConcat(p[1..], q);
    }
  }

  function Count(s: string, c: char): nat
    decreases |s|
  {
    if |s| == 0 then 0 else (if s[0] == c then 1 else 0) + Count(s[1..], c)
  }

  lemma {:induction false} CountConcat(s: string, t: string, c: char)
    ensures Count(s + t, c) == Count(s, c) + Count(t, c)
    decreases |s|
  {
    if |s| > 0 {
      assert (s + t)[1..] == s[1..] + t;
      CountConcat(s[1..], t, c);
    } else {
      assert s + t == t;
    }
  }

  lemma {:induction false} JoinCount(parts: seq<string>, sep: string, c: char)
    requires Count(sep, c) == 0
    requires forall i :: 0 <= i < |parts| ==> Count(parts[i], c) == 0
    ensures Count(Join(parts, sep), c) == 0
    decreases |parts|
  {
    if |parts| >= 2 {
      JoinCount(parts[1..], sep, c);
      CountConcat(parts[0], sep, c);
      CountConcat(parts[0] + sep, Join(parts[1..], sep), c);
    }
  }

  /**
   * println ends the line exactly once: when no argument's text contains a
   * newline, the output holds exactly one, at its end; print adds none.
   */
  lemma PrintNewlines(args: seq<Value>)
    requires forall i :: 0 <= i < |args| ==> Count(ToString(args[i]), '\n') == 0
    ensures Count(PrintText(true, args), '\n') == 1
    ensures PrintText(true, args)[|PrintText(true, args)| - 1] == '\n'
    ensures Count(PrintText(false, args), '\n') == 0
  {
    JoinCount(Texts(args), " ", '\n');
    JoinCount(Texts(args), "", '\n');
    CountConcat(Join(Texts(args), " "), "\n", '\n');
    assert Join(Texts(args), "") + "" == Join(Texts(args), "");
  }
}
