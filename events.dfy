/**
 * The output side of the usage renderer. `WrappedIndentingWriter` (line wrapping at a
 * column width, indentation of continuation lines) is outside this model: the sink here
 * records the calls made on it as a trace of events, and the properties of the rendered
 * help are stated over that trace.
 */
module Events {
  import opened Wrappers

  datatype Event = Write(text: string) | Indent(n: nat) | Deindent(n: nat)

  /** The text of a trace with wrapping and indentation ignored: its writes, concatenated. */
  function Text(events: seq<Event>): string
  {
    if events == [] then ""
    else Text(events[..|events| - 1]) + (match events[|events| - 1] case Write(s) => s case _ => "")
  }

  lemma {:induction false} TextAppend(a: seq<Event>, b: seq<Event>)
    ensures Text(a + b) == Text(a) + Text(b)
  {
    if b == [] {
      assert a + b == a;
    } else {
      assert (a + b)[..|a + b| - 1] == a + b[..|b| - 1];
      TextAppend(a, b[..|b| - 1]);
    }
  }

  /** The text of one, two or three writes. */
  lemma TextOfWrites(a: string, b: string, c: string)
    ensures Text([Write(a)]) == a
    ensures Text([Write(a), Write(b)]) == a + b
    ensures Text([Write(a), Write(b), Write(c)]) == a + b + c
  {
    var evs := [Write(a), Write(b), Write(c)];
    assert evs[..1] == [Write(a)] && evs[..2] == [Write(a), Write(b)];
    assert [Write(a)][..0] == [];
    assert [Write(a), Write(b)][..1] == [Write(a)];
  }

  /** Indentation changes carry no text. */
  lemma TextOfMarks(n: nat)
    ensures Text([Indent(n)]) == "" && Text([Deindent(n)]) == ""
  {
    assert [Indent(n)][..0] == [];
    assert [Deindent(n)][..0] == [];
  }

  lemma Assoc(a: seq<Event>, b: seq<Event>, c: seq<Event>)
    ensures a + b + c == a + (b + c)
  {
  }

  /** Writes only: no indentation change. */
  predicate WritesOnly(events: seq<Event>)
  {
    forall i :: 0 <= i < |events| ==> events[i].Write?
  }

  /**
   * Replays the indentation changes of a trace on a stack of open indents: an `Indent(n)`
   * pushes `n`, a `Deindent(n)` must pop an `n`. None when a deindent does not match the
   * innermost open indent (or there is none, which would take the level below zero).
   */
  function Nesting(events: seq<Event>, open: seq<nat>): Option<seq<nat>>
  {
    if events == [] then Some(open)
    else match Nesting(events[..|events| - 1], open)
      case None => None
      case Some(st) =>
        match events[|events| - 1]
        case Write(_) => Some(st)
        case Indent(n) => Some(st + [n])
        case Deindent(n) => if st != [] && st[|st| - 1] == n then Some(st[..|st| - 1]) else None
  }

  /** Every indent is closed by a later deindent of the same amount, and nothing else is deindented. */
  predicate Balanced(events: seq<Event>)
  {
    Nesting(events, []) == Some([])
  }

  /** The indentation level after a trace, counting each indent and deindent by its amount. */
  function Level(events: seq<Event>): int
  {
    if events == [] then 0 else Level(events[..|events| - 1]) + Shift(events[|events| - 1])
  }

  function Shift(e: Event): int
  {
    match e
    case Write(_) => 0
    case Indent(n) => n
    case Deindent(n) => -(n as int)
  }

  function Sum(st: seq<nat>): nat
  {
    if st == [] then 0 else Sum(st[..|st| - 1]) + st[|st| - 1]
  }

  lemma {:induction false} NestingAppend(a: seq<Event>, b: seq<Event>, open: seq<nat>)
    ensures Nesting(a + b, open) == match Nesting(a, open) case None => None case Some(st) => Nesting(b, st)
  {
    if b == [] {
      assert a + b == a;
    } else {
      assert (a + b)[..|a + b| - 1] == a + b[..|b| - 1];
      NestingAppend(a, b[..|b| - 1], open);
    }
  }

  /** A trace that nests correctly from no open indents nests correctly below any open indents. */
  lemma {:induction false} NestingUnder(events: seq<Event>, outer: seq<nat>, inner: seq<nat>, result: seq<nat>)
    requires Nesting(events, inner) == Some(result)
    ensures Nesting(events, outer + inner) == Some(outer + result)
  {
    if events != [] {
      var init := events[..|events| - 1];
      var st :| Nesting(init, inner) == Some(st);
      NestingUnder(init, outer, inner, st);
      match events[|events| - 1]
      case Write(_) =>
      case Indent(n) =>
        assert outer + st + [n] == outer + (st + [n]);
      case Deindent(n) =>
        assert (outer + st)[..|outer + st| - 1] == outer + st[..|st| - 1];
    }
  }

  /** The level after a trace is the sum of the indents it leaves open. */
  lemma {:induction false} LevelIsOpenIndents(events: seq<Event>, st: seq<nat>)
    requires Nesting(events, []) == Some(st)
    ensures Level(events) == Sum(st)
  {
    if events != [] {
      var init := events[..|events| - 1];
      var st0 :| Nesting(init, []) == Some(st0);
      LevelIsOpenIndents(init, st0);
      match events[|events| - 1]
      case Write(_) =>
      case Indent(n) =>
        assert (st0 + [n])[..|st0 + [n]| - 1] == st0;
      case Deindent(n) =>
    }
  }

  /** In a balanced trace the running level never drops below zero and is zero at the end. */
  lemma BalancedLevels(events: seq<Event>)
    requires Balanced(events)
    ensures Level(events) == 0
    ensures forall k :: 0 <= k <= |events| ==> Level(events[..k]) >= 0
  {
    LevelIsOpenIndents(events, []);
    forall k | 0 <= k <= |events| ensures Level(events[..k]) >= 0 {
      assert events == events[..k] + events[k..];
      NestingAppend(events[..k], events[k..], []);
      var st :| Nesting(events[..k], []) == Some(st);
      LevelIsOpenIndents(events[..k], st);
    }
  }

  lemma {:induction false} WritesOnlyBalanced(events: seq<Event>, open: seq<nat>)
    requires WritesOnly(events)
    ensures Nesting(events, open) == Some(open)
  {
    if events != [] {
      WritesOnlyBalanced(events[..|events| - 1], open);
    }
  }

  lemma BalancedConcat(a: seq<Event>, b: seq<Event>)
    requires Balanced(a) && Balanced(b)
    ensures Balanced(a + b)
  {
    NestingAppend(a, b, []);
  }

  /** Indenting by `n` around a balanced trace gives a balanced trace. */
  lemma BalancedIndented(n: nat, body: seq<Event>)
    requires Balanced(body)
    ensures Balanced([Indent(n)] + body + [Deindent(n)])
  {
    NestingAppend([Indent(n)], body, []);
    assert Nesting([Indent(n)], []) == Some([n]) by {
      assert [Indent(n)][..0] == [];
      assert [] + [n] == [n];
    }
    NestingUnder(body, [n], [], []);
    assert [n] + [] == [n];
    NestingAppend([Indent(n)] + body, [Deindent(n)], []);
    assert [Deindent(n)][..0] == [];
  }

  /**
   * The sink handed to the renderer: `WrappedIndentingWriter(writer, maxIndent, maxWidth)`.
   * It records each call; wrapping the text is the real writer's business.
   */
  class WrappedIndentingWriter {
    const maxIndent: int
    const maxWidth: int
    var events: seq<Event>

    constructor (maxIndent: int, maxWidth: int)
      ensures this.maxIndent == maxIndent && this.maxWidth == maxWidth && events == []
    {
      this.maxIndent, this.maxWidth := maxIndent, maxWidth;
      events := [];
    }

    method Write(s: string)
      modifies this
      ensures events == old(events) + [Event.Write(s)]
    {
      events := events + [Event.Write(s)];
    }

    method Indent(n: nat)
      modifies this
      ensures events == old(events) + [Event.Indent(n)]
    {
      events := events + [Event.Indent(n)];
    }

    method Deindent(n: nat)
      modifies this
      ensures events == old(events) + [Event.Deindent(n)]
    {
      events := events + [Event.Deindent(n)];
    }
  }
}
