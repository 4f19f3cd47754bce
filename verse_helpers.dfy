/** The request side of verse_helpers.py: its own copy of the slug, the
    call-and-retry-once of `request_verse_data`, and the repair request of
    `retry_traceable_fix`, over a language-model provider whose replies are
    given in advance. */
module VerseHelpers {
  import opened PyStr
  import opened Records
  import App

  /** `normalize_slug` as verse_helpers.py writes it. */
  function NormalizeSlug(verseRef: string): string {
    Replace(Replace(Replace(Replace(Lower(verseRef), ':', '_'), '–', '_'), '—', '_'), ' ', '_')
  }

  /** The two copies of `normalize_slug` agree on every reference. */
  lemma NormalizeSlugAgrees(verseRef: string)
    ensures NormalizeSlug(verseRef) == App.NormalizeSlug(verseRef)
  {
    App.NormalizeSlugChars(verseRef);
    assert forall i :: 0 <= i < |verseRef| ==> NormalizeSlug(verseRef)[i] == App.SlugChar(verseRef[i]);
  }

  // ------------------------------------------------------------ the provider

  /** What is asked of the provider: the worksheet for a reference and
      version, or a shorter traceable verse for a full verse. */
  datatype Prompt = VersePrompt(verseRef: string, version: string) | TraceFixPrompt(fullVerse: Value)

  /** `call_openai`: each call takes the next scripted reply; `None` stands
      for a failed call, and so does a call once the script is used up. */
  class Provider {
    var replies: seq<Option<string>>
    ghost var prompts: seq<Prompt>

    constructor (replies: seq<Option<string>>)
      ensures this.replies == replies && prompts == []
    {
      this.replies := replies;
      prompts := [];
    }

    method Call(prompt: Prompt) returns (r: Option<string>)
      modifies this
      ensures r == NextReply(old(replies))
      ensures replies == Rest(old(replies))
      ensures prompts == old(prompts) + [prompt]
    {
      prompts := prompts + [prompt];
      if replies == [] {
        r := None;
      } else {
        r := replies[0];
        replies := replies[1..];
      }
    }
  }

  function NextReply(replies: seq<Option<string>>): Option<string> {
    if replies == [] then None else replies[0]
  }

  function Rest(replies: seq<Option<string>>): seq<Option<string>> {
    if replies == [] then [] else replies[1..]
  }

  /** Python truthiness of a reply: present and not the empty string. */
  predicate IsContent(r: Option<string>) {
    r.Some? && r.value != ""
  }

  // ---------------------------------------------------- request_verse_data

  /** The number of provider calls `request_verse_data` makes. */
  function RequestCalls(replies: seq<Option<string>>): nat {
    if IsContent(NextReply(replies)) then 1 else 2
  }

  /** What `request_verse_data` returns. */
  function RequestResult(replies: seq<Option<string>>): Option<string> {
    var first := NextReply(replies);
    if IsContent(first) then first else NextReply(Rest(replies))
  }

  /** `request_verse_data`: asks once, and once more with the same prompt
      when the first answer is empty or failed. */
  method RequestVerseData(p: Provider, verseRef: string, version: string) returns (content: Option<string>)
    modifies p
    ensures content == RequestResult(old(p.replies))
    ensures p.replies == if RequestCalls(old(p.replies)) == 1 then Rest(old(p.replies)) else Rest(Rest(old(p.replies)))
    ensures p.prompts == old(p.prompts) + seq(RequestCalls(old(p.replies)), _ => VersePrompt(verseRef, version))
  {
    var prompt := VersePrompt(verseRef, version);
    content := p.Call(prompt);
    if IsContent(content) {
      return;
    }
    content := p.Call(prompt);
  }

  /** At most two calls; the second only after an empty or failed first one;
      the answer is the first reply when it has content and the second
      reply otherwise. */
  lemma RequestRetriesOnce(replies: seq<Option<string>>)
    ensures 1 <= RequestCalls(replies) <= 2
    ensures RequestCalls(replies) == 2 <==> !IsContent(NextReply(replies))
    ensures IsContent(NextReply(replies)) ==> RequestResult(replies) == replies[0]
    ensures !IsContent(NextReply(replies)) && |replies| >= 2 ==> RequestResult(replies) == replies[1]
    ensures |replies| < 2 && !IsContent(NextReply(replies)) ==> RequestResult(replies) == None
  {
  }

  /** The answer has content exactly when one of the (at most two) replies
      read has content. */
  lemma RequestContent(replies: seq<Option<string>>)
    ensures IsContent(RequestResult(replies)) <==>
              exists i :: 0 <= i < RequestCalls(replies) && i < |replies| && IsContent(replies[i])
  {
    if |replies| >= 2 && !IsContent(replies[0]) && IsContent(replies[1]) {
      assert 0 <= 1 < RequestCalls(replies) && IsContent(replies[1]);
    }
  }

  // --------------------------------------------------- retry_traceable_fix

  /** Parses a reply as a JSON object; `None` when the text is not JSON or
      not an object (the cases where `.get` raises and the fix is skipped). */
  type ParseObject = string -> Option<map<string, Value>>

  /** The traceable verse is present and has more than 26 words: the only
      case in which `retry_traceable_fix` asks for a shorter one. */
  predicate NeedsFix(data: map<string, Value>)
    requires StrOrAbsent(data, "traceableVerse")
  {
    WordCount(GetStr(data, "traceableVerse")) > MaxTraceWords
  }

  /** The record after the repair request got `reply`. */
  function TraceFixed(data: map<string, Value>, reply: Option<string>, parse: ParseObject): map<string, Value>
    requires "traceableVerse" in data
  {
    if IsContent(reply) && parse(reply.value).Some? then
      data["traceableVerse" := Get(parse(reply.value).value, "traceableVerse", data["traceableVerse"])]
    else data
  }

  /** A traceable verse that needs the fix is present in the record. */
  lemma NeedsFixPresent(data: map<string, Value>)
    requires StrOrAbsent(data, "traceableVerse") && NeedsFix(data)
    ensures "traceableVerse" in data
  {
  }

  /** The request of `retry_traceable_fix`: one call with the full verse,
      and the parsed `traceableVerse` taken when the answer is an object. */
  method AskShorterTrace(data: Dict, p: Provider, parse: ParseObject)
    requires "traceableVerse" in data.entries
    modifies data, p
    ensures data.entries == TraceFixed(old(data.entries), NextReply(old(p.replies)), parse)
    ensures p.replies == Rest(old(p.replies))
    ensures p.prompts == old(p.prompts) + [TraceFixPrompt(Get(old(data.entries), "fullVerse", Str("")))]
  {
    var newContent := p.Call(TraceFixPrompt(Get(data.entries, "fullVerse", Str(""))));
    if IsContent(newContent) {
      var fixed := parse(newContent.value);
      if fixed.Some? {
        data.entries := data.entries["traceableVerse" := Get(fixed.value, "traceableVerse", data.entries["traceableVerse"])];
      }
    }
  }

  /** `retry_traceable_fix`: with a long traceable verse, asks the provider
      once for a shorter one and, if the answer parses to an object, takes
      its `traceableVerse` (keeping the old one when the answer has none).
      It hands the same record back on every path. */
  method RetryTraceableFix(data: Dict, p: Provider, parse: ParseObject) returns (r: Dict)
    requires StrOrAbsent(data.entries, "traceableVerse")
    modifies data, p
    ensures r == data
    ensures !NeedsFix(old(data.entries)) ==>
              data.entries == old(data.entries) && p.replies == old(p.replies) && p.prompts == old(p.prompts)
    ensures NeedsFix(old(data.entries)) ==>
              && "traceableVerse" in old(data.entries)
              && data.entries == TraceFixed(old(data.entries), NextReply(old(p.replies)), parse)
              && p.replies == Rest(old(p.replies))
              && p.prompts == old(p.prompts) + [TraceFixPrompt(Get(old(data.entries), "fullVerse", Str("")))]
  {
    r := data;
    if !NeedsFix(data.entries) {
      return;
    }
    NeedsFixPresent(data.entries);
    AskShorterTrace(data, p, parse);
  }

  /** The repair writes no key but `traceableVerse`, adds and removes no key,
      and leaves `fullVerse` as it was. */
  lemma TraceFixedOnlyTraceable(data: map<string, Value>, reply: Option<string>, parse: ParseObject)
    requires "traceableVerse" in data
    ensures TraceFixed(data, reply, parse).Keys == data.Keys
    ensures forall k :: k in data && k != "traceableVerse" ==> TraceFixed(data, reply, parse)[k] == data[k]
    ensures "fullVerse" in data ==> TraceFixed(data, reply, parse)["fullVerse"] == data["fullVerse"]
  {
  }

  /** The repair takes the parsed `traceableVerse` when there is one, and
      keeps the record as it was otherwise. */
  lemma TraceFixedTakesReply(data: map<string, Value>, reply: Option<string>, parse: ParseObject)
    requires "traceableVerse" in data
    ensures var d := TraceFixed(data, reply, parse);
      && ((IsContent(reply) && parse(reply.value).Some? && "traceableVerse" in parse(reply.value).value)
            ==> d["traceableVerse"] == parse(reply.value).value["traceableVerse"])
      && ((!IsContent(reply) || parse(reply.value).None? || "traceableVerse" !in parse(reply.value).value)
            ==> d == data)
  {
    if IsContent(reply) && parse(reply.value).Some? && "traceableVerse" !in parse(reply.value).value {
      assert data["traceableVerse" := data["traceableVerse"]] == data;
    }
  }
}
