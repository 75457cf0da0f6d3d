/** Rendering of a job's command line from `pbs_command_infos`
    (`SubmitPBS.create_simulation_command`): the command itself followed, for
    every option in iteration order, by ` --name` when its value is None and by
    ` --name value` otherwise. The rendered line is the job's identity (its
    script name is a hash of it), so this module also proves that the line can
    be decoded back into the options it came from: two different option lists
    never render to the same line. */
module CommandLine {
  import opened Common

  /** How one option is rendered. `show` is Python's `str.format` of a value. */
  function Arg(show: Value -> string, opt: (string, Value)): string
  {
    if opt.1.NoneV? then " --" + opt.0 else " --" + opt.0 + " " + show(opt.1)
  }

  /** All options, rendered one after the other. */
  function Args(show: Value -> string, opts: Dict): string
  {
    if opts == [] then "" else Arg(show, opts[0]) + Args(show, opts[1..])
  }

  lemma {:induction false} ArgsAppend(show: Value -> string, a: Dict, b: Dict)
    ensures Args(show, a + b) == Args(show, a) + Args(show, b)
  {
    if a == [] {
      assert a + b == b;
    } else {
      assert (a + b)[0] == a[0];
      assert (a + b)[1..] == a[1..] + b;
      ArgsAppend(show, a[1..], b);
    }
  }

  lemma ArgsOne(show: Value -> string, opt: (string, Value))
    ensures Args(show, [opt]) == Arg(show, opt)
  {
    assert [opt][1..] == [];
  }

  lemma ArgsSnoc(show: Value -> string, opts: Dict, i: nat)
    requires i < |opts|
    ensures Args(show, opts[..i + 1]) == Args(show, opts[..i]) + Arg(show, opts[i])
  {
    assert opts[..i + 1] == opts[..i] + [opts[i]];
    ArgsAppend(show, opts[..i], [opts[i]]);
    ArgsOne(show, opts[i]);
  }

  lemma AppendAssoc(a: string, b: string, c: string)
    ensures a + (b + c) == (a + b) + c
  {
  }

  /** `create_simulation_command`: starting from the command, the loop appends
      one rendered argument per option, in iteration order. */
  method CreateSimulationCommand(show: Value -> string, command: string, opts: Dict)
    returns (line: string)
    ensures line == command + Args(show, opts)
  {
    line := command;
    var i := 0;
    while i < |opts|
      invariant i <= |opts|
      invariant line == command + Args(show, opts[..i])
    {
      ArgsSnoc(show, opts, i);
      var arg := Arg(show, opts[i]);
      AppendAssoc(command, Args(show, opts[..i]), arg);
      line := line + arg;
      i := i + 1;
    }
    assert opts[..|opts|] == opts;
  }

  // ---------------------------------------------------------------------
  // Decoding a rendered argument string.

  /** What a rendered command line says: each flag with its value text, if any. */
  function Decoded(show: Value -> string, opts: Dict): seq<(string, Option<string>)>
  {
    if opts == [] then []
    else [(opts[0].0, if opts[0].1.NoneV? then None else Some(show(opts[0].1)))]
         + Decoded(show, opts[1..])
  }

  /** Options whose rendering can be read back: names and value texts hold no
      space, and no value text starts with `--`. */
  predicate Renderable(show: Value -> string, opts: Dict)
  {
    forall i :: 0 <= i < |opts| ==>
      ' ' !in opts[i].0 &&
      (!opts[i].1.NoneV? ==> ' ' !in show(opts[i].1) && !("--" <= show(opts[i].1)))
  }

  /** The longest prefix without a space. */
  function Word(s: string): (w: string)
    ensures w <= s && ' ' !in w
    ensures |w| < |s| ==> s[|w|] == ' '
  {
    if s == [] || s[0] == ' ' then [] else [s[0]] + Word(s[1..])
  }

  lemma {:induction false} WordOf(w: string, t: string)
    requires ' ' !in w
    requires t == [] || t[0] == ' '
    ensures Word(w + t) == w
  {
    if w != [] {
      assert (w + t)[1..] == w[1..] + t;
      WordOf(w[1..], t);
    }
  }

  /** The text starts with ` --`, as every rendered argument does. */
  predicate Dashes(s: string)
  {
    |s| >= 3 && s[0] == ' ' && s[1] == '-' && s[2] == '-'
  }

  /** Reads the group at the head of `s` — ` --name` or ` --name value` — and
      returns it with the text that follows it. */
  function Group(s: string): (r: ((string, Option<string>), string))
    requires Dashes(s)
    ensures |r.1| < |s|
  {
    var name := Word(s[3..]);
    var rest := s[3 + |name|..];
    if rest == [] || Dashes(rest) then ((name, None), rest)
    else
      var value := Word(rest[1..]);
      ((name, Some(value)), rest[1 + |value|..])
  }

  /** Reads ` --name` and ` --name value` groups back into flags. */
  function ParseArgs(s: string): seq<(string, Option<string>)>
    decreases |s|
  {
    if !Dashes(s) then []
    else
      var g := Group(s);
      [g.0] + ParseArgs(g.1)
  }

  lemma ArgsStart(show: Value -> string, opts: Dict)
    ensures Args(show, opts) == [] || Dashes(Args(show, opts))
  {
  }

  /** A flag without value is read back as such. */
  lemma ParseFlag(name: string, tail: string)
    requires ' ' !in name
    requires tail == [] || Dashes(tail)
    ensures ParseArgs(" --" + name + tail) == [(name, None)] + ParseArgs(tail)
  {
    var s := " --" + name + tail;
    assert s == " --" + (name + tail);
    Behind(" --", name + tail);
    WordOf(name, tail);
    Behind(name, tail);
    assert s[3 + |name|..] == tail;
  }

  lemma Behind(a: string, b: string)
    ensures (a + b)[|a|..] == b
  {
  }

  /** A value text that does not start with `--`, followed by the next
      group, does not read as a new flag. */
  lemma ValueNotFlag(w: string, tail: string)
    requires !("--" <= w)
    requires tail == [] || Dashes(tail)
    ensures !Dashes(" " + (w + tail))
  {
    var rest := " " + (w + tail);
    if |w| >= 2 {
      assert rest[1] == w[0] && rest[2] == w[1];
      assert w[..2] == [w[0], w[1]];
    } else if |w| == 1 && |tail| > 0 {
      assert rest[2] == tail[0];
    } else if |tail| > 0 {
      assert rest[1] == tail[0];
    }
  }

  /** The group at the head of a valued flag is the flag with its value. */
  lemma GroupValued(name: string, w: string, tail: string)
    requires ' ' !in name && ' ' !in w && !("--" <= w)
    requires tail == [] || Dashes(tail)
    ensures Dashes(" --" + (name + (" " + (w + tail))))
    ensures Group(" --" + (name + (" " + (w + tail)))) == ((name, Some(w)), tail)
  {
    var rest := " " + (w + tail);
    var s := " --" + (name + rest);
    Behind(" --", name + rest);
    WordOf(name, rest);
    Behind(name, rest);
    assert s[3 + |name|..] == rest;
    ValueNotFlag(w, tail);
    Behind(" ", w + tail);
    WordOf(w, tail);
    Behind(w, tail);
  }

  /** A flag with a value is read back with that value. */
  lemma ParseValued(name: string, w: string, tail: string)
    requires ' ' !in name && ' ' !in w && !("--" <= w)
    requires tail == [] || Dashes(tail)
    ensures ParseArgs(" --" + name + " " + w + tail) == [(name, Some(w))] + ParseArgs(tail)
  {
    assert " --" + name + " " + w + tail == " --" + (name + (" " + (w + tail)));
    GroupValued(name, w, tail);
  }

  /** Decoding the rendered arguments gives back every option, in order. */
  lemma {:induction false} ParseRendered(show: Value -> string, opts: Dict)
    requires Renderable(show, opts)
    ensures ParseArgs(Args(show, opts)) == Decoded(show, opts)
  {
    if opts != [] {
      var name := opts[0].0;
      var tail := Args(show, opts[1..]);
      assert Renderable(show, opts[1..]) by {
        forall i | 0 <= i < |opts[1..]|
          ensures opts[1..][i] == opts[i + 1]
        {
        }
      }
      ParseRendered(show, opts[1..]);
      ArgsStart(show, opts[1..]);
      if opts[0].1.NoneV? {
        ParseFlag(name, tail);
      } else {
        ParseValued(name, show(opts[0].1), tail);
        assert Args(show, opts) == " --" + name + " " + show(opts[0].1) + tail;
      }
    }
  }

  /** The same command with two option lists renders to the same line only if
      the lists say the same thing: same names, same order, same value texts. */
  lemma RenderedInjective(show: Value -> string, command: string, a: Dict, b: Dict)
    requires Renderable(show, a) && Renderable(show, b)
    requires command + Args(show, a) == command + Args(show, b)
    ensures Decoded(show, a) == Decoded(show, b)
  {
    var ra, rb := command + Args(show, a), command + Args(show, b);
    assert Args(show, a) == ra[|command|..];
    assert Args(show, b) == rb[|command|..];
    ParseRendered(show, a);
    ParseRendered(show, b);
  }
}
