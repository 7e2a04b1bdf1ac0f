/**
 * The per-call conversation context store: a map from stream id to a map of
 * string keys to string values, and the system prompt built from it.
 *
 * Each operation is a pure function of the old store; the class below
 * updates its one field in place and ensures the new value is what the
 * function gives.
 */
module ConversationState {
  import opened Wrappers

  type Store = map<string, map<string, string>>

  const ContextKey: string := "context"

  /**
   * The fixed part of every system prompt. The pieces follow the source's
   * line breaks; the first word is a piece of its own so that the verifier
   * can see the prompt's first character.
   */
  const BasePrompt: string :=
    "You "
    + "are a Korean-speaking customer service agent.\n"
    + "You MUST respond in Korean language only.\n"
    + "\n"
    + "Example conversation:\n"
    + "Customer: 여보세요?\n"
    + "You: 안녕하십니까. 무엇을 도와드릴까요?\n"
    + "Customer: 예약 확인하고 싶어요.\n"
    + "You: 네, 예약 확인 도와드리겠습니다.\n"
    + "\n"
    + "Always respond in Korean like the examples above."

  // -------------------------------------------------------------------
  // Python's str.strip(): removes leading and trailing whitespace, where
  // whitespace is every code point str.isspace() accepts.
  // -------------------------------------------------------------------

  predicate IsSpace(ch: char) {
    var n := ch as int;
    (9 <= n <= 13) || (0x1c <= n <= 0x20) || n == 0x85 || n == 0xa0 || n == 0x1680
    || (0x2000 <= n <= 0x200a) || n == 0x2028 || n == 0x2029 || n == 0x202f
    || n == 0x205f || n == 0x3000
  }

  predicate AllSpace(s: string) {
    forall i | 0 <= i < |s| :: IsSpace(s[i])
  }

  function TrimStart(s: string): string
    decreases |s|
  {
    if s != [] && IsSpace(s[0]) then TrimStart(s[1..]) else s
  }

  function TrimEnd(s: string): string
    decreases |s|
  {
    if s != [] && IsSpace(s[|s| - 1]) then TrimEnd(s[..|s| - 1]) else s
  }

  function Strip(s: string): string {
    TrimEnd(TrimStart(s))
  }

  /** TrimEnd cuts exactly a whitespace suffix, and what it keeps does not end in whitespace. */
  lemma {:induction false} TrimEndShape(s: string)
    ensures var t := TrimEnd(s);
            |t| <= |s| && t == s[..|t|] && AllSpace(s[|t|..])
            && (t != [] ==> !IsSpace(t[|t| - 1]))
    decreases |s|
  {
    if s != [] && IsSpace(s[|s| - 1]) {
      var p := s[..|s| - 1];
      TrimEndShape(p);
      var t := TrimEnd(p);
      assert s[..|t|] == p[..|t|];
      assert s[|t|..] == p[|t|..] + [s[|s| - 1]];
    }
  }

  /** TrimStart cuts exactly a whitespace prefix, and what it keeps does not start with whitespace. */
  lemma {:induction false} TrimStartShape(s: string)
    ensures var t := TrimStart(s);
            |t| <= |s| && t == s[|s| - |t|..] && AllSpace(s[..|s| - |t|])
            && (t != [] ==> !IsSpace(t[0]))
    decreases |s|
  {
    if s != [] && IsSpace(s[0]) {
      TrimStartShape(s[1..]);
      var t := TrimStart(s[1..]);
      assert s[1..][|s| - 1 - |t|..] == s[|s| - |t|..];
      assert s[..|s| - |t|] == [s[0]] + s[1..][..|s| - 1 - |t|];
    }
  }

  /** A string that is all whitespace trims to the empty string. */
  lemma {:induction false} TrimEndAllSpace(s: string)
    requires AllSpace(s)
    ensures TrimEnd(s) == ""
    decreases |s|
  {
    if s != [] {
      TrimEndAllSpace(s[..|s| - 1]);
    }
  }

  /** Trailing whitespace is only ever cut from the suffix after a non-space character. */
  lemma {:induction false} TrimEndAfter(a: string, b: string)
    requires a != [] && !IsSpace(a[|a| - 1])
    ensures TrimEnd(a + b) == a + TrimEnd(b)
    decreases |b|
  {
    if b == [] {
      assert a + b == a;
    } else {
      assert (a + b)[|a + b| - 1] == b[|b| - 1];
      assert (a + b)[..|a + b| - 1] == a + b[..|b| - 1];
      if IsSpace(b[|b| - 1]) {
        TrimEndAfter(a, b[..|b| - 1]);
      }
    }
  }

  /** The prompt for one stream's data: strip(base + "\n" + data.get("context", "")). */
  function SystemPrompt(data: map<string, string>): string {
    var customContext := if ContextKey in data then data[ContextKey] else "";
    Strip(BasePrompt + ("\n" + customContext))
  }

  lemma BasePromptStart()
    ensures |BasePrompt| > 0 && BasePrompt[0] == 'Y'
  {
  }

  lemma BasePromptEnd()
    ensures |BasePrompt| > 0 && BasePrompt[|BasePrompt| - 1] == '.'
  {
  }

  /** Stripping text that starts and ends with non-space characters, followed by a tail, only trims the tail's end. */
  lemma StripAfter(head: string, tail: string)
    requires head != [] && !IsSpace(head[0]) && !IsSpace(head[|head| - 1])
    ensures Strip(head + tail) == head + TrimEnd(tail)
  {
    var s := head + tail;
    assert s[0] == head[0];
    assert TrimStart(s) == s;
    TrimEndAfter(head, tail);
  }

  /** Stripping the base prompt followed by any text only trims that text's end. */
  lemma StripAfterBase(tail: string)
    ensures Strip(BasePrompt + tail) == BasePrompt + TrimEnd(tail)
  {
    BasePromptStart();
    BasePromptEnd();
    StripAfter(BasePrompt, tail);
  }

  /** The newline before the context survives the strip iff the context has a non-space character. */
  lemma TrimEndNewlineContext(customContext: string)
    ensures TrimEnd("\n" + customContext) ==
              if AllSpace(customContext) then "" else "\n" + TrimEnd(customContext)
  {
    var tail := "\n" + customContext;
    if AllSpace(customContext) {
      assert AllSpace(tail) by {
        forall i | 0 <= i < |tail| ensures IsSpace(tail[i]) {
          if i > 0 { assert tail[i] == customContext[i - 1]; }
        }
      }
      TrimEndAllSpace(tail);
    } else {
      TrimEndShape(customContext);
      var t := TrimEnd(customContext);
      var rest := customContext[|t|..];
      assert customContext[0..] == customContext;
      assert t != [];
      var head := "\n" + t;
      assert head[|head| - 1] == t[|t| - 1];
      assert customContext == t + rest;
      assert tail == head + rest;
      TrimEndAfter(head, rest);
      TrimEndAllSpace(rest);
      assert head + "" == head;
    }
  }

  /**
   * The prompt is the base prompt, followed by a newline and the context
   * without its trailing whitespace when the context has any non-space
   * character, and is exactly the base prompt otherwise.
   */
  lemma SystemPromptShape(data: map<string, string>)
    ensures var customContext := if ContextKey in data then data[ContextKey] else "";
            SystemPrompt(data) ==
              if AllSpace(customContext) then BasePrompt
              else BasePrompt + ("\n" + TrimEnd(customContext))
  {
    var customContext := if ContextKey in data then data[ContextKey] else "";
    BasePromptStart();
    BasePromptEnd();
    PromptShape(BasePrompt, customContext);
  }

  /** SystemPromptShape for any base text that starts and ends with non-space characters. */
  lemma PromptShape(base: string, customContext: string)
    requires base != [] && !IsSpace(base[0]) && !IsSpace(base[|base| - 1])
    ensures Strip(base + ("\n" + customContext)) ==
              if AllSpace(customContext) then base else base + ("\n" + TrimEnd(customContext))
  {
    StripAfter(base, "\n" + customContext);
    TrimEndNewlineContext(customContext);
    if AllSpace(customContext) {
      assert base + "" == base;
    }
  }

  /** With no "context" entry the prompt is exactly the base prompt. */
  lemma PromptWithoutContext(data: map<string, string>)
    requires ContextKey !in data
    ensures SystemPrompt(data) == BasePrompt
  {
    SystemPromptShape(data);
  }

  /** Keys other than "context" (such as "last_ai_response") do not affect the prompt. */
  lemma PromptIgnoresOtherKeys(data: map<string, string>, key: string, value: string)
    requires key != ContextKey
    ensures SystemPrompt(data[key := value]) == SystemPrompt(data)
    ensures SystemPrompt(data - {key}) == SystemPrompt(data)
  {
  }

  // -------------------------------------------------------------------
  // The store operations as functions of the old store.
  // -------------------------------------------------------------------

  /** `store.get(sid, {})`. */
  function DataOf(store: Store, sid: string): map<string, string> {
    if sid in store then store[sid] else map[]
  }

  /** `store.setdefault(sid, {})`: the entry exists afterwards, nothing else changes. */
  function WithEntry(store: Store, sid: string): (r: Store)
    ensures r.Keys == store.Keys + {sid}
    ensures r[sid] == DataOf(store, sid)
    ensures forall s | s in store :: r[s] == store[s]
  {
    store[sid := DataOf(store, sid)]
  }

  /** update_context: `key` maps to `value` for `sid`; other keys and streams are unchanged. */
  function Updated(store: Store, sid: string, key: string, value: string): (r: Store)
    ensures r.Keys == store.Keys + {sid}
    ensures r[sid].Keys == DataOf(store, sid).Keys + {key} && r[sid][key] == value
    ensures forall k | k in DataOf(store, sid) && k != key :: r[sid][k] == DataOf(store, sid)[k]
    ensures forall s | s in store && s != sid :: r[s] == store[s]
  {
    store[sid := DataOf(store, sid)[key := value]]
  }

  /** pop_context: the value removed (or the default) and the new store. */
  function Popped(store: Store, sid: string, key: string, default: string): (r: (string, Store))
    ensures r.0 == if key in DataOf(store, sid) then DataOf(store, sid)[key] else default
    ensures r.1.Keys == store.Keys + {sid}
    ensures r.1[sid] == DataOf(store, sid) - {key}
    ensures forall s | s in store && s != sid :: r.1[s] == store[s]
  {
    var data := DataOf(store, sid);
    if key in data then (data[key], store[sid := data - {key}])
    else (default, store[sid := data])
  }

  /** clear: all data of `sid` is gone, other streams unchanged. */
  function Cleared(store: Store, sid: string): (r: Store)
    ensures sid !in r
    ensures r.Keys == store.Keys - {sid}
    ensures forall s | s in r :: r[s] == store[s]
    ensures sid !in store ==> r == store
  {
    store - {sid}
  }

  /** pop_context right after update_context returns the value just stored and removes the key. */
  lemma PopAfterUpdate(store: Store, sid: string, key: string, value: string, default: string)
    ensures var r := Popped(Updated(store, sid, key, value), sid, key, default);
            r.0 == value
            && key !in r.1[sid]
            && r.1[sid] == DataOf(store, sid) - {key}
            && r.1 == (Popped(store, sid, key, default)).1
  {
    var r := Popped(Updated(store, sid, key, value), sid, key, default);
    assert DataOf(store, sid)[key := value] - {key} == DataOf(store, sid) - {key};
    assert r.1 == (Popped(store, sid, key, default)).1;
  }

  /** pop_context on a missing key returns the default and leaves an entry for the stream. */
  lemma PopMissingKey(store: Store, sid: string, key: string, default: string)
    requires key !in DataOf(store, sid)
    ensures Popped(store, sid, key, default) == (default, WithEntry(store, sid))
  {
    assert DataOf(store, sid) - {key} == DataOf(store, sid);
  }

  /** The owner of the store: `_session_context` is updated in place. */
  class ConversationStateManager {
    var sessionContext: Store

    constructor ()
      ensures sessionContext == map[]
    {
      sessionContext := map[];
    }

    /** build_system_prompt: also creates the stream's (empty) entry when it is missing. */
    method BuildSystemPrompt(streamSid: string) returns (prompt: string)
      modifies this`sessionContext
      ensures sessionContext == WithEntry(old(sessionContext), streamSid)
      ensures prompt == SystemPrompt(DataOf(old(sessionContext), streamSid))
    {
      sessionContext := WithEntry(sessionContext, streamSid);
      var sessionData := sessionContext[streamSid];
      var customContext := if ContextKey in sessionData then sessionData[ContextKey] else "";
      prompt := Strip(BasePrompt + ("\n" + customContext));
    }

    method UpdateContext(streamSid: string, key: string, value: string)
      modifies this`sessionContext
      ensures sessionContext == Updated(old(sessionContext), streamSid, key, value)
    {
      sessionContext := WithEntry(sessionContext, streamSid);
      var sessionData := sessionContext[streamSid];
      sessionContext := sessionContext[streamSid := sessionData[key := value]];
    }

    method PopContext(streamSid: string, key: string, default: string := "") returns (value: string)
      modifies this`sessionContext
      ensures (value, sessionContext) == Popped(old(sessionContext), streamSid, key, default)
    {
      sessionContext := WithEntry(sessionContext, streamSid);
      var sessionData := sessionContext[streamSid];
      if key in sessionData {
        value := sessionData[key];
        sessionContext := sessionContext[streamSid := sessionData - {key}];
        assert sessionContext == old(sessionContext)[streamSid := sessionData - {key}];
      } else {
        value := default;
      }
    }

    method Clear(streamSid: string)
      modifies this`sessionContext
      ensures sessionContext == Cleared(old(sessionContext), streamSid)
    {
      sessionContext := sessionContext - {streamSid};
    }
  }
}
