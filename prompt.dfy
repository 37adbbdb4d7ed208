/**
 * The prompt sent to the LLM (src/interpreter/prompt.rs): the fixed system prompt, then the
 * current editing context as pretty-printed JSON, then the user's request, under two headers.
 * The system prompt's text is a parameter; the context's serialisation is given as its outcome.
 */
module Prompt {
  import opened Wrappers
  import opened Text

  const ContextHeader := "\n\n## Current Context\n"
  const RequestHeader := "\n\n## User Request\n"

  /** `format_context`: the pretty-printed context, or `{}` when serialisation fails. */
  function FormatContext(serialised: Option<string>): (r: string)
    ensures serialised.Some? ==> r == serialised.value
    ensures serialised.None? ==> r == "{}"
  {
    serialised.GetOr("{}")
  }

  /** `build_prompt`. */
  function BuildPrompt(systemPrompt: string, context: string, request: string): string {
    systemPrompt + ContextHeader + context + RequestHeader + request
  }

  /** The prompt starts with the system prompt and ends with the request, verbatim. */
  lemma PromptFrame(systemPrompt: string, context: string, request: string)
    ensures StartsWith(BuildPrompt(systemPrompt, context, request), systemPrompt)
    ensures var p := BuildPrompt(systemPrompt, context, request);
      |request| <= |p| && p[|p| - |request|..] == request
  {
    var p := BuildPrompt(systemPrompt, context, request);
    assert p == systemPrompt + (ContextHeader + context + RequestHeader + request);
    assert p == (systemPrompt + ContextHeader + context + RequestHeader) + request;
  }

  /** Text with no blank line in it and no newline at its end, as pretty-printed JSON is. */
  predicate NoBlankLine(s: string) {
    (forall i :: 0 <= i < |s| - 1 ==> !(s[i] == '\n' && s[i + 1] == '\n'))
    && (s != [] ==> s[|s| - 1] != '\n')
  }

  /** Splitting what follows the context header at the first request header. */
  function SplitAtRequest(rest: string): Option<(string, string)> {
    match Find(rest, RequestHeader)
    case None => None
    case Some(k) => Some((rest[..k], rest[k + |RequestHeader|..]))
  }

  /**
   * Reading a prompt back: drop the system prompt and the context header, then split at the first
   * request header.
   */
  function SplitPrompt(systemPrompt: string, prompt: string): Option<(string, string)> {
    match StripPrefix(prompt, systemPrompt + ContextHeader)
    case None => None
    case Some(rest) => SplitAtRequest(rest)
  }

  /** The request header cannot start inside a context with no blank line. */
  lemma HeaderNotInContext(context: string, request: string, k: nat)
    requires NoBlankLine(context) && k < |context|
    ensures !OccursAt(context + RequestHeader + request, RequestHeader, k)
  {
    var s := context + RequestHeader + request;
    if k + 1 < |context| {
      assert s[k] == context[k] && s[k + 1] == context[k + 1];
      assert !(s[k] == '\n' && s[k + 1] == '\n');
    } else {
      assert s[k] == context[k] && s[k + 1] == RequestHeader[0];
      assert s[k] != '\n';
    }
    if OccursAt(s, RequestHeader, k) {
      OccursAtChars(s, RequestHeader, k, 0);
      OccursAtChars(s, RequestHeader, k, 1);
    }
  }

  lemma {:induction false} SplitAtRequestOfBuilt(context: string, request: string)
    requires NoBlankLine(context)
    ensures SplitAtRequest(context + RequestHeader + request) == Some((context, request))
  {
    var rest := context + RequestHeader + request;
    assert OccursAt(rest, RequestHeader, |context|) by {
      assert rest[|context|..|context| + |RequestHeader|] == RequestHeader;
    }
    forall k | 0 <= k < |context|
      ensures !OccursAt(rest, RequestHeader, k)
    {
      HeaderNotInContext(context, request, k);
    }
    FindIsFirstOccurrence(rest, RequestHeader, |context|);
    assert rest[..|context|] == context;
    assert rest[|context| + |RequestHeader|..] == request;
  }

  /**
   * The context sits between the context header and the first request header after it: a prompt
   * built from a context with no blank line splits back into that context and the request.
   */
  lemma {:induction false} SplitBuildPrompt(systemPrompt: string, context: string, request: string)
    requires NoBlankLine(context)
    ensures SplitPrompt(systemPrompt, BuildPrompt(systemPrompt, context, request)) == Some((context, request))
  {
    var rest := context + RequestHeader + request;
    assert BuildPrompt(systemPrompt, context, request) == (systemPrompt + ContextHeader) + rest;
    StripPrefixOfConcat(systemPrompt + ContextHeader, rest);
    SplitAtRequestOfBuilt(context, request);
  }

  /** The `{}` fallback satisfies the condition of `SplitBuildPrompt`. */
  lemma FallbackContextHasNoBlankLine()
    ensures NoBlankLine(FormatContext(None))
  {
  }
}
