/**
 The two pure pieces of `generate_python_configuration`: the rule that turns
 the configured host into the server's `args` and `external` flag, and the
 comma-separated option strings that become lists of stripped names.
 */
module PythonConfig {
  import opened LspTypes
  import Lifecycle
  import opened SeqFacts

  /** `LSPManager.LOCALHOST`. */
  const Localhost: seq<string> := ["127.0.0.1", "localhost"]

  /** The argument template handed to a server the manager launches itself. */
  const LocalArgs: string := "--host {host} --port {port} --tcp"

  // ---------------------------------------------------------------------------
  // Server endpoint

  /**
   The configuration `generate_python_configuration` returns, given the
   configuration it starts from and the `command_launch`, `host` and `port`
   options: a local host gets the launch arguments and is not external, any
   other host gets no arguments and is external.
   */
  function PythonServerConfig(base: Config, cmd: string, host: string, port: int): (c: Config)
    ensures c.cmd == cmd && c.host == host && c.port == port
    ensures c.configurations == base.configurations
    ensures c.external <==> host !in Localhost
    ensures c.args == (if c.external then "" else LocalArgs)
  {
    if host in Localhost then
      base.(cmd := cmd, args := LocalArgs, external := false, host := host, port := port)
    else
      base.(cmd := cmd, args := "", external := true, host := host, port := port)
  }

  /**
   Two generated configurations need a server restart exactly when the
   command, the host or the port differ: `args` and `external` follow the
   host, and the plugin settings never matter.
   */
  lemma GeneratedRestartIff(b1: Config, cmd1: string, host1: string, port1: int,
                            b2: Config, cmd2: string, host2: string, port2: int)
    ensures var c1, c2 := PythonServerConfig(b1, cmd1, host1, port1), PythonServerConfig(b2, cmd2, host2, port2);
      Lifecycle.NeedsRestart(c1, c2) <==> (cmd1, host1, port1) != (cmd2, host2, port2)
  {
    var c1, c2 := PythonServerConfig(b1, cmd1, host1, port1), PythonServerConfig(b2, cmd2, host2, port2);
    Lifecycle.NeedsRestartIff(c1, c2);
  }

  // ---------------------------------------------------------------------------
  // Splitting on a separator (`str.split(sep)`)

  /**
   `s.split(sep)`: the pieces between separators, in order; there is always
   one more piece than separators, so the empty string gives one empty piece.
   */
  function Split(s: string, sep: char): (parts: seq<string>)
    ensures |parts| >= 1
    decreases |s|
  {
    if s == [] then [""]
    else
      var rest := Split(s[1..], sep);
      if s[0] == sep then [""] + rest
      else [[s[0]] + rest[0]] + rest[1..]
  }

  /** No piece contains the separator, and there is one piece more than separators. */
  lemma {:induction false} SplitPieces(s: string, sep: char)
    ensures var parts := Split(s, sep);
      && |parts| == 1 + multiset(s)[sep]
      && forall i :: 0 <= i < |parts| ==> sep !in parts[i]
    decreases |s|
  {
    if s != [] {
      SplitPieces(s[1..], sep);
      assert s == [s[0]] + s[1..];
      var rest := Split(s[1..], sep);
      var parts := Split(s, sep);
      if s[0] != sep {
        assert sep !in [s[0]] + rest[0] by {
          assert sep !in rest[0];
        }
        assert forall i :: 1 <= i < |parts| ==> parts[i] == rest[i];
      } else {
        assert forall i :: 1 <= i < |parts| ==> parts[i] == rest[i - 1];
      }
    }
  }

  /** `sep.join(parts)`. */
  function Join(parts: seq<string>, sep: char): (s: string)
    requires |parts| >= 1
    decreases |parts|
  {
    if |parts| == 1 then parts[0] else parts[0] + [sep] + Join(parts[1..], sep)
  }

  /** Joining the pieces with the separator gives back the string. */
  lemma {:induction false} JoinSplit(s: string, sep: char)
    ensures Join(Split(s, sep), sep) == s
    decreases |s|
  {
    if s != [] {
      var c, t := s[0], s[1..];
      assert s == [c] + t;
      var rest := Split(t, sep);
      JoinSplit(t, sep);
      var parts := Split(s, sep);
      if c == sep {
        assert parts == [""] + rest;
        assert parts[1..] == rest;
        calc {
          Join(parts, sep);
          parts[0] + [sep] + Join(parts[1..], sep);
          [] + [sep] + t;
          s;
        }
      } else if |rest| == 1 {
        assert parts == [[c] + rest[0]];
      } else {
        assert parts == [[c] + rest[0]] + rest[1..];
        assert parts[1..] == rest[1..];
        calc {
          Join(parts, sep);
          ([c] + rest[0]) + [sep] + Join(rest[1..], sep);
          { AppendAssoc([c], rest[0], [sep]);
            AppendAssoc([c], rest[0] + [sep], Join(rest[1..], sep)); }
          [c] + (rest[0] + [sep] + Join(rest[1..], sep));
          [c] + Join(rest, sep);
        }
      }
    }
  }

  /** A separator-free prefix only lengthens the first piece. */
  lemma {:induction false} SplitPrefix(p: string, t: string, sep: char)
    requires sep !in p
    ensures var rest := Split(t, sep);
      Split(p + t, sep) == [p + rest[0]] + rest[1..]
    decreases |p|
  {
    var rest := Split(t, sep);
    if p == [] {
      assert p + t == t;
      assert p + rest[0] == rest[0];
      assert [rest[0]] + rest[1..] == rest;
    } else {
      var q := p[1..];
      assert sep !in q by {
        assert forall c :: c in q ==> c in p;
      }
      SplitPrefix(q, t, sep);
      assert p[0] != sep by {
        assert p[0] in p;
      }
      assert (p + t)[1..] == q + t;
      AppendAssoc([p[0]], q, rest[0]);
      assert [p[0]] + q == p;
    }
  }

  /** Splitting a join of separator-free pieces gives back the pieces. */
  lemma {:induction false} SplitJoin(parts: seq<string>, sep: char)
    requires |parts| >= 1
    requires forall i :: 0 <= i < |parts| ==> sep !in parts[i]
    ensures Split(Join(parts, sep), sep) == parts
    decreases |parts|
  {
    var head := parts[0];
    if |parts| == 1 {
      SplitPrefix(head, [], sep);
      assert head + [] == head;
    } else {
      var tail := Join(parts[1..], sep);
      SplitJoin(parts[1..], sep);
      assert ([sep] + tail)[1..] == tail;
      assert Split([sep] + tail, sep) == [""] + parts[1..];
      SplitPrefix(head, [sep] + tail, sep);
      AppendAssoc(head, [sep], tail);
      assert Join(parts, sep) == head + ([sep] + tail);
      assert head + "" == head;
      assert [head] + parts[1..] == parts;
    }
  }

  // ---------------------------------------------------------------------------
  // Stripping whitespace (`str.strip()`)

  /** `str.isspace()` for one character: the characters Python treats as whitespace. */
  predicate IsSpace(c: char)
  {
    var n := c as int;
    || (9 <= n <= 13) || (28 <= n <= 32) || n == 0x85 || n == 0xA0 || n == 0x1680
    || (0x2000 <= n <= 0x200A) || n == 0x2028 || n == 0x2029 || n == 0x202F
    || n == 0x205F || n == 0x3000
  }

  /** How many whitespace characters `s` starts with. */
  function LeadingSpaces(s: string): (n: nat)
    ensures n <= |s|
    ensures forall k :: 0 <= k < n ==> IsSpace(s[k])
    ensures n == |s| || !IsSpace(s[n])
    decreases |s|
  {
    if s == [] || !IsSpace(s[0]) then 0 else 1 + LeadingSpaces(s[1..])
  }

  /** How many whitespace characters `s` ends with. */
  function TrailingSpaces(s: string): (n: nat)
    ensures n <= |s|
    ensures forall k :: |s| - n <= k < |s| ==> IsSpace(s[k])
    ensures n == |s| || !IsSpace(s[|s| - 1 - n])
    decreases |s|
  {
    if s == [] || !IsSpace(s[|s| - 1]) then 0 else 1 + TrailingSpaces(s[..|s| - 1])
  }

  /**
   `s.strip()`: `s` without its leading and trailing whitespace. The result is
   a slice of `s` that neither starts nor ends with whitespace, and everything
   cut off on either side is whitespace.
   */
  function Strip(s: string): (r: string)
    ensures r == [] || (!IsSpace(r[0]) && !IsSpace(r[|r| - 1]))
    ensures exists i, j ::
      && 0 <= i <= j <= |s| && r == s[i..j]
      && (forall k :: 0 <= k < i ==> IsSpace(s[k]))
      && (forall k :: j <= k < |s| ==> IsSpace(s[k]))
  {
    var left := s[LeadingSpaces(s)..];
    var r := left[..|left| - TrailingSpaces(left)];
    assert r == s[LeadingSpaces(s)..|s| - TrailingSpaces(left)];
    r
  }

  /** Stripping twice is stripping once. */
  lemma StripIdempotent(s: string)
    ensures Strip(Strip(s)) == Strip(s)
  {
    var r := Strip(s);
    if r != [] {
      assert LeadingSpaces(r) == 0;
      assert TrailingSpaces(r) == 0;
      assert r[0..] == r;
    }
  }

  // ---------------------------------------------------------------------------
  // Option lists

  /**
   An option such as `pycodestyle/exclude` read as a list: split at commas,
   each piece stripped, one entry per piece and in the same order.
   */
  function OptionList(s: string): (names: seq<string>)
    ensures var parts := Split(s, ',');
      |names| == |parts| && forall i :: 0 <= i < |names| ==> names[i] == Strip(parts[i])
  {
    var parts := Split(s, ',');
    seq(|parts|, i requires 0 <= i < |parts| => Strip(parts[i]))
  }

  /**
   Every name in an option list is free of commas and of surrounding
   whitespace, and there is one more name than commas in the option.
   */
  lemma OptionListNames(s: string)
    ensures |OptionList(s)| == 1 + multiset(s)[',']
    ensures forall i :: 0 <= i < |OptionList(s)| ==>
      var name := OptionList(s)[i];
      && ',' !in name
      && (name == [] || (!IsSpace(name[0]) && !IsSpace(name[|name| - 1])))
  {
    var parts := Split(s, ',');
    SplitPieces(s, ',');
    forall i | 0 <= i < |OptionList(s)|
      ensures ',' !in OptionList(s)[i]
    {
      var name := Strip(parts[i]);
      assert ',' !in parts[i];
      var a, b :| 0 <= a <= b <= |parts[i]| && name == parts[i][a..b];
      assert forall c :: c in name ==> c in parts[i];
    }
  }
}
