/** The shared test fixtures: the helper that writes `|||` tool inputs, and the
    mock language model and retriever the tool tests are built on. */
module Conftest {
  import opened Text
  import opened Collaborators
  import opened ToolInput

  // ---------------------------------------------------------------------------
  // build_tool_input
  // ---------------------------------------------------------------------------

  /** `f"{key}: {value}"` */
  function Encode(field: (string, string)): string {
    field.0 + ": " + field.1
  }

  function Encoded(fields: seq<(string, string)>): (entries: seq<string>)
    ensures |entries| == |fields|
  {
    seq(|fields|, i requires 0 <= i < |fields| => Encode(fields[i]))
  }

  /** `build_tool_input(**fields)`: the fields in keyword order, joined by
      `" ||| "`. */
  function BuildToolInput(fields: seq<(string, string)>): (toolInput: string)
    ensures toolInput == "" <==> |fields| == 0
    ensures |fields| > 0 ==> StartsWith(toolInput, Encode(fields[0]))
  {
    if |fields| == 0 then ""
    else
      JoinHead(Encoded(fields), " ||| ");
      assert |Encode(fields[0])| >= 2;
      Join(Encoded(fields), " ||| ")
  }

  /** The segments a tool sees when it splits a built input on `|||`: each
      encoded field, keeping the blank of `" ||| "` on each side that had one. */
  function Padded(entries: seq<string>): (segments: seq<string>)
    ensures |segments| == |entries|
  {
    seq(|entries|, i requires 0 <= i < |entries| =>
      (if i > 0 then " " else "") + entries[i] + (if i < |entries| - 1 then " " else ""))
  }

  /** No key and no value contains the delimiter. */
  predicate Clean(fields: seq<(string, string)>) {
    forall i :: 0 <= i < |fields| ==> !Contains(fields[i].0, Delimiter) && !Contains(fields[i].1, Delimiter)
  }

  lemma EncodeClean(key: string, value: string)
    requires !Contains(key, Delimiter) && !Contains(value, Delimiter)
    ensures !Contains(Encode((key, value)), Delimiter)
  {
    ShortNotContained(":", Delimiter);
    ShortNotContained(" ", Delimiter);
    NotContainsConcat(key, ":", Delimiter, ':');
    NotContainsConcat(key + ":", " ", Delimiter, ' ');
    assert key + ": " == key + ":" + " ";
    NotContainsConcat(key + ": ", value, Delimiter, ' ');
  }

  /** One joining step: an entry without the delimiter, the separator, and
      the rest, split into the padded entry and the rest's pieces, the
      first of them padded in front. */
  lemma SplitJoinStep(first: string, rest: string)
    requires !Contains(first, Delimiter)
    ensures |Split(rest, Delimiter)| >= 1
    ensures Split(first + " ||| " + rest, Delimiter)
         == [first + " "] + ([" " + Split(rest, Delimiter)[0]] + Split(rest, Delimiter)[1..])
  {
    assert first + " ||| " + rest == (first + " ") + Delimiter + (" " + rest);
    ShortNotContained(" ", Delimiter);
    NotContainsConcat(first, " ", Delimiter, ' ');
    SplitAtSep(first + " ", Delimiter, " " + rest);
    SplitPrefix(" ", rest, Delimiter);
  }

  /** Splitting entries joined by `" ||| "` on `|||` gives back one segment
      per entry, in order, as long as no entry contains the delimiter itself. */
  lemma {:induction false} SplitJoined(entries: seq<string>)
    requires |entries| >= 1
    requires forall i :: 0 <= i < |entries| ==> !Contains(entries[i], Delimiter)
    ensures Segments(Join(entries, " ||| ")) == Padded(entries)
    decreases |entries|
  {
    if |entries| == 1 {
      SplitNoSep(entries[0], Delimiter);
      assert Padded(entries)[0] == entries[0];
    } else {
      SplitJoined(entries[1..]);
      SplitJoinStep(entries[0], Join(entries[1..], " ||| "));
      PaddedCons(entries);
    }
  }

  /** The padded entries are the first one padded behind, then the padded
      rest with one more space in front. */
  lemma PaddedCons(entries: seq<string>)
    requires |entries| >= 2
    ensures Padded(entries)
         == [entries[0] + " "] + ([" " + Padded(entries[1..])[0]] + Padded(entries[1..])[1..])
  {
    var tail := Padded(entries[1..]);
    var segments := [entries[0] + " "] + ([" " + tail[0]] + tail[1..]);
    forall i | 0 <= i < |entries|
      ensures segments[i] == Padded(entries)[i]
    {
      if i >= 2 {
        assert segments[i] == tail[i - 1];
      }
    }
  }

  /** Splitting a built input on `|||` gives back one segment per field, in
      order, as long as no key or value contains the delimiter itself. */
  lemma SplitBuild(fields: seq<(string, string)>)
    requires |fields| >= 1 && Clean(fields)
    ensures Segments(BuildToolInput(fields)) == Padded(Encoded(fields))
  {
    var entries := Encoded(fields);
    forall i | 0 <= i < |entries|
      ensures !Contains(entries[i], Delimiter)
    {
      EncodeClean(fields[i].0, fields[i].1);
    }
    SplitJoined(entries);
  }

  /** A single field is not split at all. */
  lemma BuildOne(key: string, value: string)
    requires !Contains(key, Delimiter) && !Contains(value, Delimiter)
    ensures Segments(BuildToolInput([(key, value)])) == [key + ": " + value]
  {
    SplitBuild([(key, value)]);
  }

  /** Three fields build their entries, in argument order, joined by
      `" ||| "`: the join unfolded for three fields, which the three-field
      round trips start from. */
  lemma BuildThree(f0: (string, string), f1: (string, string), f2: (string, string))
    ensures BuildToolInput([f0, f1, f2]) == Encode(f0) + " ||| " + (Encode(f1) + " ||| " + Encode(f2))
  {
    var entries := [Encode(f0), Encode(f1), Encode(f2)];
    assert Encoded([f0, f1, f2]) == entries;
    assert entries[1..] == [Encode(f1), Encode(f2)] && entries[1..][1..] == [Encode(f2)];
    assert Join(entries[1..], " ||| ") == Encode(f1) + " ||| " + Encode(f2);
  }

  /** No fields build the empty input. */
  lemma BuildNone()
    ensures BuildToolInput([]) == ""
  {
  }

  // ---------------------------------------------------------------------------
  // MockLLM
  // ---------------------------------------------------------------------------

  /** The model every `MockLLM(text)` stands for: whatever it is sent, it
      replies with `text`. */
  function Replying(text: string): (llm: Llm)
    ensures forall p :: llm(p) == Reply(text)
  {
    p => Reply(text)
  }

  class MockLLM {
    const responseText: string
    var callCount: nat
    var lastMessages: Option<seq<Prompt>>

    constructor(responseText: string := "Mock LLM response")
      ensures this.responseText == responseText
      ensures callCount == 0 && lastMessages == None
    {
      this.responseText := responseText;
      callCount := 0;
      lastMessages := None;
    }

    /** `invoke(messages)`: counts the call, remembers the messages and
        answers with the configured text. */
    method Invoke(messages: seq<Prompt>) returns (reply: Completion)
      modifies this
      ensures callCount == old(callCount) + 1
      ensures lastMessages == Some(messages)
      ensures |messages| > 0 ==> reply == Replying(responseText)(messages[0])
      ensures reply == Reply(responseText)
    {
      callCount := callCount + 1;
      lastMessages := Some(messages);
      reply := Reply(responseText);
    }
  }

  // ---------------------------------------------------------------------------
  // MockRetriever
  // ---------------------------------------------------------------------------

  /** What a tool sees when it calls `retriever.retrieve(query, k=3)` on the
      mock, whose parameter is called `top_k`: Python rejects the keyword
      before the body runs. */
  const KeywordRejected := "MockRetriever." + "retrieve() got " + "an unexpected " + "keyword argument 'k'"

  function RetrievingThroughKeyword(documents: seq<string>): (retriever: Retriever)
    ensures forall q, k :: retriever(q, k) == RetrievalRaised(KeywordRejected)
  {
    (q, k) => RetrievalRaised(KeywordRejected)
  }

  /** What a tool would see if it passed the count as `top_k` (or by
      position): the first `top_k` documents. */
  function RetrievingAsTopK(documents: seq<string>): (retriever: Retriever)
    ensures forall q, k :: retriever(q, k) == Retrieved(SliceTo(documents, k))
  {
    (q, k) => Retrieved(SliceTo(documents, k))
  }

  class MockRetriever {
    const documents: seq<string>
    var lastQuery: Option<string>
    var lastTopK: Option<int>

    /** `MockRetriever(documents=None)`: `documents or []`, so leaving the
        argument out and passing an empty list are the same. */
    constructor(documents: Option<seq<string>> := None)
      ensures this.documents == (if documents.Some? then documents.value else [])
      ensures lastQuery == None && lastTopK == None
    {
      this.documents := if documents.Some? then documents.value else [];
      lastQuery := None;
      lastTopK := None;
    }

    /** `retrieve(query, top_k=3)`: remembers the query and count, and returns
        the first `top_k` documents. */
    method Retrieve(query: string, topK: int := 3) returns (docs: seq<string>)
      modifies this
      ensures lastQuery == Some(query) && lastTopK == Some(topK)
      ensures docs == SliceTo(documents, topK)
      ensures 0 <= topK ==> |docs| <= topK && docs == documents[..|docs|]
    {
      lastQuery := Some(query);
      lastTopK := Some(topK);
      docs := SliceTo(documents, topK);
    }
  }
}
