/**
 * Building the subscription statement that `await_pg_notifications` sends
 * before it starts waiting (pgnotify/notify.py:53-54 and 78-85).
 */
module Subscription {
  import opened Wrappers
  import opened Sequences

  /**
   * The `channels` argument: Python accepts a single string (detected with
   * `isinstance(channels, string_types)`) or any iterable of strings.
   */
  datatype Channels = Single(name: string) | Many(names: seq<string>)

  /** A lone string becomes a one-element list; anything else is used as given. */
  function ChannelList(channels: Channels): (names: seq<string>)
  {
    match channels
    case Single(name) => [name]
    case Many(names) => names
  }

  /** `'"{}"'.format(name)`: wraps the name in double quotes, escaping nothing. */
  function QuoteTableName(name: string): (quoted: string)
  {
    "\"" + name + "\""
  }

  /** `"listen {}".format(n)` applied to a quoted name. */
  function ListenClause(name: string): (clause: string)
  {
    "listen " + QuoteTableName(name)
  }

  /** The list comprehension over the quoted names, in input order. */
  function ListenClauses(names: seq<string>): (clauses: seq<string>)
  {
    seq(|names|, i requires 0 <= i < |names| => ListenClause(names[i]))
  }

  /** Python's `sep.join(parts)`. */
  function Join(sep: string, parts: seq<string>): (joined: string)
    decreases |parts|
  {
    if |parts| == 0 then ""
    else if |parts| == 1 then parts[0]
    else parts[0] + sep + Join(sep, parts[1..])
  }

  const Separator: string := "; "
  const ClausePrefix: string := "listen \""

  /** The statement executed on the connection, `"; ".join([...])`. */
  function ListenStatement(channels: Channels): (statement: string)
  {
    Join(Separator, ListenClauses(ChannelList(channels)))
  }

  /** The quoted name is the name itself between two double quotes; nothing inside is altered. */
  lemma QuoteTableNameShape(name: string)
    ensures var q := QuoteTableName(name);
      |q| == |name| + 2 && q[0] == '"' && q[|q| - 1] == '"' && q[1..|q| - 1] == name
  {
  }

  /** A single string channel subscribes exactly as the one-element list holding it. */
  lemma SingleChannelIsOneElementList(name: string)
    ensures ListenStatement(Single(name)) == ListenStatement(Many([name]))
    ensures ListenStatement(Single(name)) == "listen \"" + name + "\""
  {
  }

  /** No channels: the statement is empty. */
  lemma NoChannelsEmptyStatement()
    ensures ListenStatement(Many([])) == ""
  {
  }

  /**
   * Channels appear in input order: adding a channel at the end appends
   * `"; listen "<name>"` to the statement.
   */
  lemma {:induction false} ListenStatementAppend(names: seq<string>, name: string)
    requires |names| > 0
    ensures ListenStatement(Many(names + [name]))
         == ListenStatement(Many(names)) + Separator + ListenClause(name)
  {
    JoinSnoc(ListenClauses(names), ListenClause(name));
    assert ListenClauses(names + [name]) == ListenClauses(names) + [ListenClause(name)];
  }

  lemma {:induction false} JoinSnoc(parts: seq<string>, last: string)
    requires |parts| > 0
    ensures Join(Separator, parts + [last]) == Join(Separator, parts) + Separator + last
  {
    var longer := parts + [last];
    assert longer[0] == parts[0] && longer[1..] == parts[1..] + [last];
    if |parts| == 1 {
      assert longer[1..] == [last];
    } else {
      JoinSnoc(parts[1..], last);
      ConcatAssoc(parts[0] + Separator, Join(Separator, parts[1..]) + Separator, last);
      ConcatAssoc(parts[0] + Separator, Join(Separator, parts[1..]), Separator);
    }
  }

  /** Index of the first `"` in `s`, or `|s|` when it holds none. */
  function FirstQuote(s: string): (k: nat)
    ensures k <= |s|
    ensures k < |s| ==> s[k] == '"'
    ensures forall i :: 0 <= i < k ==> s[i] != '"'
  {
    if s == [] then 0
    else if s[0] == '"' then 0
    else 1 + FirstQuote(s[1..])
  }

  /** Reads back the channel names from a non-empty sequence of `listen "<name>"` clauses. */
  function ParseClauses(s: string): (names: Option<seq<string>>)
    decreases |s|
  {
    if |s| < |ClausePrefix| || s[..|ClausePrefix|] != ClausePrefix then None
    else
      var rest := s[|ClausePrefix|..];
      var k := FirstQuote(rest);
      if k == |rest| then None
      else
        var after := rest[k + 1..];
        if after == [] then Some([rest[..k]])
        else if |after| < |Separator| || after[..|Separator|] != Separator then None
        else
          match ParseClauses(after[|Separator|..])
          case None => None
          case Some(names) => Some([rest[..k]] + names)
  }

  /** Reads back the channel list from a statement; the empty statement subscribes to nothing. */
  function ParseStatement(s: string): (names: Option<seq<string>>)
  {
    if s == [] then Some([]) else ParseClauses(s)
  }

  predicate QuoteFree(names: seq<string>)
  {
    forall i :: 0 <= i < |names| ==> '"' !in names[i]
  }

  lemma FirstQuoteAfter(name: string, tail: string)
    requires '"' !in name
    ensures FirstQuote(name + "\"" + tail) == |name|
  {
    assert (name + "\"" + tail)[|name|] == '"';
  }

  /** Parsing one clause `listen "<name>"` followed by the rest of the statement. */
  lemma ParseClauseStep(name: string, tail: string)
    requires '"' !in name
    requires tail == [] || (|Separator| <= |tail| && tail[..|Separator|] == Separator)
    ensures ParseClauses(ListenClause(name) + tail)
         == if tail == [] then Some([name])
            else match ParseClauses(tail[|Separator|..])
                 case None => None
                 case Some(names) => Some([name] + names)
  {
    var s := ListenClause(name) + tail;
    var rest := name + "\"" + tail;
    assert "listen " + "\"" == ClausePrefix;
    ConcatAssoc("listen ", "\"" + name, "\"");
    ConcatAssoc("listen ", "\"", name);
    assert ListenClause(name) == ClausePrefix + name + "\"";
    ConcatAssoc(ClausePrefix + name, "\"", tail);
    ConcatAssoc(ClausePrefix, name, "\"" + tail);
    ConcatAssoc(name, "\"", tail);
    assert s == ClausePrefix + rest;
    assert s[..|ClausePrefix|] == ClausePrefix;
    assert s[|ClausePrefix|..] == rest;
    FirstQuoteAfter(name, tail);
    assert rest[..|name|] == name;
    assert rest[|name| + 1..] == tail;
  }

  lemma JoinListenClausesOne(names: seq<string>)
    requires |names| == 1
    ensures Join(Separator, ListenClauses(names)) == ListenClause(names[0])
  {
  }

  lemma JoinListenClausesCons(names: seq<string>)
    requires |names| > 1
    ensures Join(Separator, ListenClauses(names))
         == ListenClause(names[0]) + (Separator + Join(Separator, ListenClauses(names[1..])))
  {
    var clauses := ListenClauses(names);
    assert clauses[0] == ListenClause(names[0]);
    assert clauses[1..] == ListenClauses(names[1..]);
    ConcatAssoc(ListenClause(names[0]), Separator, Join(Separator, ListenClauses(names[1..])));
  }

  lemma QuoteFreeTail(names: seq<string>)
    requires |names| > 0 && QuoteFree(names)
    ensures '"' !in names[0] && QuoteFree(names[1..])
  {
  }

  lemma ParseOneClause(names: seq<string>)
    requires |names| == 1 && QuoteFree(names)
    ensures ParseClauses(Join(Separator, ListenClauses(names))) == Some(names)
  {
    JoinListenClausesOne(names);
    ParseClauseStep(names[0], "");
    assert ListenClause(names[0]) + "" == ListenClause(names[0]);
    assert names == [names[0]];
  }

  lemma ParseNextClause(names: seq<string>)
    requires |names| > 1 && QuoteFree(names)
    requires ParseClauses(Join(Separator, ListenClauses(names[1..]))) == Some(names[1..])
    ensures ParseClauses(Join(Separator, ListenClauses(names))) == Some(names)
  {
    QuoteFreeTail(names);
    var inner := Join(Separator, ListenClauses(names[1..]));
    JoinListenClausesCons(names);
    assert (Separator + inner)[..|Separator|] == Separator;
    assert (Separator + inner)[|Separator|..] == inner;
    ParseClauseStep(names[0], Separator + inner);
    assert names == [names[0]] + names[1..];
  }

  lemma {:induction false} ParseClausesRoundTrip(names: seq<string>)
    requires |names| > 0 && QuoteFree(names)
    ensures ParseClauses(Join(Separator, ListenClauses(names))) == Some(names)
  {
    if |names| == 1 {
      ParseOneClause(names);
    } else {
      QuoteFreeTail(names);
      ParseClausesRoundTrip(names[1..]);
      ParseNextClause(names);
    }
  }

  /**
   * The statement determines the channel list: when no channel name holds a
   * double quote, parsing the statement gives back the names in input order.
   */
  lemma ListenStatementRoundTrip(channels: Channels)
    requires QuoteFree(ChannelList(channels))
    ensures ParseStatement(ListenStatement(channels)) == Some(ChannelList(channels))
  {
    var names := ChannelList(channels);
    if |names| > 0 {
      ParseClausesRoundTrip(names);
      assert |ClausePrefix| <= |ListenStatement(channels)| by {
        assert ListenStatement(channels)[..|ClausePrefix|] == ClausePrefix;
      }
    }
  }

  /**
   * Embedded quotes are not escaped: the single channel `a"; listen "b`
   * produces the very statement that subscribes to the two channels `a` and `b`.
   */
  lemma EmbeddedQuoteSplitsChannel()
    ensures ListenStatement(Many(["a\"; listen \"b"])) == ListenStatement(Many(["a", "b"]))
    ensures ParseStatement(ListenStatement(Many(["a\"; listen \"b"]))) == Some(["a", "b"])
  {
    var statement := "listen \"a\"; listen \"b\"";
    assert ListenClause("a\"; listen \"b") == statement;
    assert ListenClause("a") == "listen \"a\"" && ListenClause("b") == "listen \"b\"";
    assert ListenClauses(["a\"; listen \"b"]) == [statement];
    assert ListenClauses(["a", "b"]) == ["listen \"a\"", "listen \"b\""];
    assert ListenStatement(Many(["a", "b"])) == statement;
    assert QuoteFree(["a", "b"]);
    ListenStatementRoundTrip(Many(["a", "b"]));
  }
}
