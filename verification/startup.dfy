/**
 * What the bot reads before any account starts: the account list (a parsed JSON document)
 * and the message corpus (a text file, one message per line), and how one message is
 * drawn from the corpus.
 */
module Startup {
  import opened Wrappers
  import opened Text
  import opened Js

  /** An account entry usable by the bot: both `token` and `ai_id` are truthy. */
  predicate HasCredentials(acc: JsValue) {
    Truthy(Field(acc, "token")) && Truthy(Field(acc, "ai_id"))
  }

  /** Why the account list was refused; the process then exits with status 1. */
  datatype AccountsError =
    | WrongFormat                    // not an array, or an empty one
    | UnreadableEntry(index: nat)    // reading `token` of a null or undefined entry throws
    | MissingCredentials(index: nat) // the entry lacks a truthy `token` or `ai_id`

  /**
   * `loadAccounts` after the file has been read and parsed: accept a non-empty array whose
   * every entry has credentials, and otherwise report the first entry the loop stops at.
   */
  method LoadAccounts(parsed: JsValue) returns (r: Result<seq<JsValue>, AccountsError>)
    ensures r.Success? <==>
      parsed.Arr? && |parsed.items| > 0 && forall acc :: acc in parsed.items ==> HasCredentials(acc)
    ensures r.Success? ==> r.value == parsed.items
    ensures r == Failure(WrongFormat) <==> !parsed.Arr? || parsed.items == []
    ensures r.Failure? && !r.error.WrongFormat? ==>
      var k := r.error.index;
      parsed.Arr? && k < |parsed.items| && !HasCredentials(parsed.items[k])
      && (forall j :: 0 <= j < k ==> HasCredentials(parsed.items[j]))
      && (r.error.UnreadableEntry? <==> parsed.items[k].Null? || parsed.items[k].Undefined?)
  {
    if !parsed.Arr? || |parsed.items| == 0 {
      return Failure(WrongFormat);
    }
    var accounts := parsed.items;
    for i := 0 to |accounts|
      invariant forall j :: 0 <= j < i ==> HasCredentials(accounts[j])
    {
      var acc := accounts[i];
      if acc.Null? || acc.Undefined? {
        assert acc in parsed.items && !HasCredentials(acc);
        return Failure(UnreadableEntry(i));
      }
      if !Truthy(Field(acc, "token")) || !Truthy(Field(acc, "ai_id")) {
        assert acc in parsed.items && !HasCredentials(acc);
        return Failure(MissingCredentials(i));
      }
    }
    return Success(accounts);
  }

  /** What one line of the corpus contributes: its trimmed text, unless that is empty. */
  function Kept(line: string): seq<string> {
    var t := Trim(line);
    if t == "" then [] else [t]
  }

  /** `lines.map(m => m.trim()).filter(Boolean)`. */
  function Messages(lines: seq<string>): (ms: seq<string>)
    ensures |ms| <= |lines|
    ensures forall m :: m in ms ==> m != "" && IsTrimmed(m)
  {
    if lines == [] then [] else Kept(lines[0]) + Messages(lines[1..])
  }

  /** Every message is the trimmed text of one of the lines. */
  lemma {:induction false} MessageOrigin(lines: seq<string>, m: string)
    requires m in Messages(lines)
    ensures exists l :: l in lines && m == Trim(l)
  {
    if m !in Kept(lines[0]) {
      MessageOrigin(lines[1..], m);
      var l :| l in lines[1..] && m == Trim(l);
      assert l in lines;
    }
  }

  /** The corpus was blank. */
  datatype MessagesError = EmptyCorpus

  /**
   * `loadMessages` after the file has been read: the trimmed non-blank lines, in order; a
   * corpus with no such line is an error.
   */
  function LoadMessages(raw: string): (r: Result<seq<string>, MessagesError>)
    ensures r.Failure? <==> AllWhitespace(raw)
    ensures r.Success? ==> r.value != [] && forall m :: m in r.value ==>
      m != "" && IsTrimmed(m) && '\n' !in m
  {
    var ms := Messages(Split(raw, '\n'));
    BlankCorpus(raw);
    assert forall m :: m in ms ==> '\n' !in m by {
      forall m | m in ms ensures '\n' !in m {
        LineFeedFree(raw, m);
      }
    }
    if ms == [] then Failure(EmptyCorpus) else Success(ms)
  }

  /** A message never spans two lines. */
  lemma LineFeedFree(raw: string, m: string)
    requires m in Messages(Split(raw, '\n'))
    ensures '\n' !in m
  {
    MessageOrigin(Split(raw, '\n'), m);
    var line :| line in Split(raw, '\n') && m == Trim(line);
    TrimKeeps(line, '\n');
  }

  /** Trimming takes characters away and adds none. */
  lemma TrimKeeps(line: string, c: char)
    requires c !in line
    ensures c !in Trim(line)
  {
  }

  /** The corpus yields no message exactly when it is blank. */
  lemma {:induction false} BlankCorpus(raw: string)
    ensures Messages(Split(raw, '\n')) == [] <==> AllWhitespace(raw)
  {
    var parts := Split(raw, '\n');
    JoinSplit(raw, '\n');
    NoMessagesIff(parts);
    BlankJoin(parts, '\n');
  }

  /** No message survives exactly when every line is blank. */
  lemma {:induction false} NoMessagesIff(lines: seq<string>)
    ensures Messages(lines) == [] <==> forall l :: l in lines ==> AllWhitespace(l)
  {
    if lines != [] {
      NoMessagesIff(lines[1..]);
      assert forall l :: l in lines <==> l == lines[0] || l in lines[1..];
    }
  }

  /** Joined with a whitespace separator, the text is blank exactly when every piece is. */
  lemma {:induction false} BlankJoin(parts: seq<string>, sep: char)
    requires |parts| >= 1 && IsWhitespace(sep)
    ensures AllWhitespace(Join(parts, sep)) <==> forall p :: p in parts ==> AllWhitespace(p)
    decreases |parts|
  {
    if |parts| > 1 {
      BlankJoin(parts[1..], sep);
      var head, tail := parts[0], Join(parts[1..], sep);
      assert Join(parts, sep) == head + [sep] + tail;
      BlankConcat(head + [sep], tail);
      BlankConcat(head, [sep]);
      assert forall p :: p in parts <==> p == head || p in parts[1..];
    } else {
      assert parts == [parts[0]];
    }
  }

  lemma BlankConcat(a: string, b: string)
    ensures AllWhitespace(a + b) <==> AllWhitespace(a) && AllWhitespace(b)
  {
    if AllWhitespace(a) && AllWhitespace(b) {
      forall k | 0 <= k < |a + b| ensures IsWhitespace((a + b)[k]) {
        if k >= |a| { assert (a + b)[k] == b[k - |a|]; }
      }
    }
    if AllWhitespace(a + b) {
      forall k | 0 <= k < |a| ensures IsWhitespace(a[k]) {
        assert (a + b)[k] == a[k];
      }
      forall k | 0 <= k < |b| ensures IsWhitespace(b[k]) {
        assert (a + b)[|a| + k] == b[k];
      }
    }
  }

  /** The messages of two runs of lines are the messages of each, in the same order. */
  lemma {:induction false} MessagesAppend(a: seq<string>, b: seq<string>)
    ensures Messages(a + b) == Messages(a) + Messages(b)
  {
    if a == [] {
      assert a + b == b;
    } else {
      assert (a + b)[1..] == a[1..] + b;
      MessagesAppend(a[1..], b);
    }
  }

  /**
   * A corpus written as separator-free lines joined by line feeds loads as exactly the
   * messages of those lines.
   */
  lemma LoadMessagesOfLines(lines: seq<string>)
    requires |lines| >= 1 && forall l :: l in lines ==> '\n' !in l
    ensures LoadMessages(Join(lines, '\n')) ==
      if Messages(lines) == [] then Failure(EmptyCorpus) else Success(Messages(lines))
  {
    SplitJoin(lines, '\n');
  }

  /** `getRandomMessage` with the random index taken as a parameter. */
  function RandomMessage(messages: seq<string>, i: nat): (m: string)
    requires i < |messages|
    ensures m in messages
  {
    messages[i]
  }
}
