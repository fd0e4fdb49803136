/**
 * The request handler of the chat worker: input validation, the daily
 * usage quota, prompt assembly, the bounded conversation history, the
 * commit-on-success rule of a chat turn, the remaining-chat count, and
 * the path and content-type logic of static file serving.
 *
 * The store is a `Kv.Store`; the upstream completion service is an
 * oracle `upstream: Call -> Completion` passed in by the caller; the
 * calendar day ("YYYY-MM-DD") is passed in as well, once for the quota
 * check and once for the increment, since the worker asks the clock
 * separately in the two places.
 */
module Worker {
  import opened Js
  import opened HistoryJson
  import opened Kv

  // ---------------------------------------------------------------------
  // Constants and keys
  // ---------------------------------------------------------------------

  /** Chat turns a client may take per calendar day. */
  const DailyLimit: nat := 20
  /** Stored history entries kept per (client, character): five exchanges. */
  const HistoryCap: nat := 10
  /** `expirationTtl` of every write, in seconds. */
  const Ttl: nat := 86400

  const GlobalPromptKey: string := "global_prompt"
  const ApiKeyKey: string := "venice_api_key"

  function UsageKey(fingerprint: string, day: string): string {
    "usage:" + fingerprint + ":" + day
  }

  function HistoryKey(fingerprint: string, characterId: string): string {
    "history:" + fingerprint + ":" + characterId
  }

  function CharacterKey(characterId: string): string {
    "character:" + characterId
  }

  /** The key families never collide: a history write cannot touch a usage
      record, and no key of a client can touch the configuration keys.
      The keys differ in their first character. */
  lemma KeysDistinct(fingerprint: string, day: string, fp: string, characterId: string, cid: string)
    ensures UsageKey(fingerprint, day) != HistoryKey(fp, characterId)
    ensures UsageKey(fingerprint, day) !in {CharacterKey(cid), GlobalPromptKey, ApiKeyKey}
    ensures HistoryKey(fp, characterId) !in {CharacterKey(cid), GlobalPromptKey, ApiKeyKey}
    ensures CharacterKey(cid) !in {GlobalPromptKey, ApiKeyKey}
  {
    assert UsageKey(fingerprint, day)[0] == 'u';
    assert HistoryKey(fp, characterId)[0] == 'h';
    assert CharacterKey(cid)[0] == 'c';
    assert GlobalPromptKey[0] == 'g' && ApiKeyKey[0] == 'v';
  }

  /** On one day, two clients share a usage record only if they present
      the same fingerprint. */
  lemma {:induction false} UsageKeyInjective(fingerprint: string, other: string, day: string)
    requires UsageKey(fingerprint, day) == UsageKey(other, day)
    ensures fingerprint == other
  {
    var k := UsageKey(fingerprint, day);
    assert |fingerprint| == |other|;
    assert k == "usage:" + (fingerprint + (":" + day));
    assert k == "usage:" + (other + (":" + day));
    assert fingerprint == k[6..6 + |fingerprint|];
    assert other == k[6..6 + |other|];
  }

  /** One client's usage records of two different days are different
      keys, so every day starts from its own record. */
  lemma {:induction false} UsageKeyPerDay(fingerprint: string, day: string, otherDay: string)
    requires UsageKey(fingerprint, day) == UsageKey(fingerprint, otherDay)
    ensures day == otherDay
  {
    var k := UsageKey(fingerprint, day);
    var n := |"usage:" + fingerprint + ":"|;
    assert k == ("usage:" + fingerprint + ":") + day;
    assert k == ("usage:" + fingerprint + ":") + otherDay;
    assert day == k[n..];
    assert otherDay == k[n..];
  }

  // ---------------------------------------------------------------------
  // Usage tracker
  // ---------------------------------------------------------------------

  /** What `checkUsageLimit` returns. */
  datatype UsageCheck = UsageCheck(allowed: bool, count: Num)

  /** The count a stored usage value stands for: 0 when absent or empty,
      otherwise `parseInt` of it. */
  function StoredCount(stored: Option<string>): Num {
    if Truthy(stored) then ParseInt(stored.value) else Int(0)
  }

  /** `count < 20` in JavaScript: false for NaN. */
  predicate UnderLimit(count: Num) {
    count.Int? && count.v < DailyLimit
  }

  /** The value `incrementUsageCount` computes from the stored one:
      `parseInt(current) + 1`, or 1 when absent or empty. */
  function NextCount(stored: Option<string>): (next: Num)
    ensures next == Succ(StoredCount(stored))
  {
    if Truthy(stored) then Succ(ParseInt(stored.value)) else Int(1)
  }

  /** What the increment writes is read back by the next check as the
      same number, and that check admits it exactly when it is a number
      below the limit. With nothing stored, the count is zero. */
  lemma StoredCountReadsWritten(x: Num)
    ensures StoredCount(Some(NumToString(x))) == x
    ensures UnderLimit(StoredCount(Some(NumToString(x)))) <==> x.Int? && x.v < DailyLimit
    ensures StoredCount(None) == Int(0) && UnderLimit(StoredCount(None))
  {
    ParseIntOfNumToString(x);
    assert NumToString(x) != "" by {
      if x.Int? && x.v < 0 {
        assert NumToString(x)[0] == '-';
      }
    }
  }

  /** After an increment, the next quota check reads exactly one more than
      the previous one did, whatever text was stored before. */
  lemma IncrementReadsBack(stored: Option<string>)
    ensures StoredCount(Some(NumToString(NextCount(stored)))) == Succ(StoredCount(stored))
  {
    StoredCountReadsWritten(NextCount(stored));
  }

  /** `checkUsageLimit(fingerprint, env)` on day `today`. */
  method CheckUsageLimit(kv: Store, fingerprint: string, today: string) returns (usage: UsageCheck)
    modifies kv`trace
    ensures usage.count == StoredCount(Lookup(kv.data, UsageKey(fingerprint, today)))
    ensures usage.allowed <==> UnderLimit(usage.count)
    ensures kv.trace == old(kv.trace) + [Access.Get(UsageKey(fingerprint, today))]
  {
    var usageKey := UsageKey(fingerprint, today);
    var currentUsage := kv.Get(usageKey);
    var count := StoredCount(currentUsage);
    usage := UsageCheck(count.Int? && count.v < DailyLimit, count);
  }

  /** `incrementUsageCount(fingerprint, env)` on day `today`: a plain
      read-then-write of one key. */
  method IncrementUsageCount(kv: Store, fingerprint: string, today: string)
    modifies kv
    ensures var usageKey := UsageKey(fingerprint, today);
      var next := NumToString(NextCount(Lookup(old(kv.data), usageKey)));
      kv.data == old(kv.data)[usageKey := next]
      && kv.trace == old(kv.trace) + [Access.Get(usageKey), Access.Put(usageKey, next, Ttl)]
  {
    var usageKey := UsageKey(fingerprint, today);
    var currentUsage := kv.Get(usageKey);
    var count := if Truthy(currentUsage) then Succ(ParseInt(currentUsage.value)) else Int(1);
    kv.Put(usageKey, NumToString(count), Ttl);
  }

  /** A client that starts a day with no usage record and completes `n`
      increments reads back a count of exactly `n`. */
  function AfterIncrements(n: nat): Option<string> {
    if n == 0 then None else Some(NumToString(NextCount(AfterIncrements(n - 1))))
  }

  lemma IncrementStep(prev: Option<string>, k: int)
    requires StoredCount(prev) == Int(k)
    ensures StoredCount(Some(NumToString(NextCount(prev)))) == Int(k + 1)
  {
    IncrementReadsBack(prev);
  }

  lemma {:induction false} IncrementsCount(n: nat)
    ensures StoredCount(AfterIncrements(n)) == Int(n)
  {
    if n == 0 {
      assert AfterIncrements(n) == None;
    } else {
      var prev := AfterIncrements(n - 1);
      if n > 1 {
        IncrementsCount(n - 1);
      }
      assert StoredCount(prev) == Int(n - 1);
      IncrementStep(prev, n - 1);
    }
  }

  /** The quota admits exactly the first twenty turns of a day. */
  lemma QuotaAdmitsTwenty(n: nat)
    ensures UnderLimit(StoredCount(AfterIncrements(n))) <==> n < DailyLimit
  {
    IncrementsCount(n);
  }

  // ---------------------------------------------------------------------
  // Remaining-chat arithmetic
  // ---------------------------------------------------------------------

  /** `Math.max(0, 20 - count - 1)`, the estimate a chat reply carries,
      computed from the count read before the increment. */
  function ChatRemaining(count: int): (r: nat)
    ensures count >= 0 ==> r <= DailyLimit - 1
    ensures r == 0 <==> count >= DailyLimit - 1
    ensures r > 0 ==> r == DailyLimit - 1 - count
  {
    if DailyLimit - count - 1 > 0 then DailyLimit - count - 1 else 0
  }

  /** `Math.max(0, 20 - count)` on a JavaScript number: NaN stays NaN. */
  function RemainingOf(count: Num): (r: Num)
    ensures r.NaN? <==> count.NaN?
    ensures count.Int? ==> (r.v == 0 <==> count.v >= DailyLimit)
    ensures count.Int? ==> r.v >= 0 && (r.v > 0 ==> r.v == DailyLimit - count.v)
    ensures count.Int? && count.v >= 0 ==> r.v <= DailyLimit
  {
    match count
    case NaN => NaN
    case Int(c) => Int(if DailyLimit - c > 0 then DailyLimit - c else 0)
  }

  // ---------------------------------------------------------------------
  // Prompt assembly and bounded history
  // ---------------------------------------------------------------------

  function UserMessage(content: string): Message {
    Message("user", content)
  }

  function AssistantMessage(content: string): Message {
    Message("assistant", content)
  }

  /** The message list sent upstream: the global system prompt (empty when
      unset), the character's system prompt, the stored history in order,
      and the new user turn. */
  function BuildMessages(globalPrompt: Option<string>, characterPrompt: string,
                         history: seq<Message>, userMessage: string): (r: seq<Message>)
    ensures |r| == |history| + 3
    ensures r[0] == Message("system", if Truthy(globalPrompt) then globalPrompt.value else "")
    ensures r[1] == Message("system", characterPrompt)
    ensures r[2..|r| - 1] == history
    ensures r[|r| - 1] == UserMessage(userMessage)
  {
    var global := if Truthy(globalPrompt) then globalPrompt.value else "";
    [Message("system", global), Message("system", characterPrompt)] + history + [UserMessage(userMessage)]
  }

  /** With no history the prompt is exactly the two system prompts and the
      user turn. */
  lemma EmptyHistoryPrompt(globalPrompt: Option<string>, characterPrompt: string, userMessage: string)
    ensures BuildMessages(globalPrompt, characterPrompt, [], userMessage)
            == [Message("system", if Truthy(globalPrompt) then globalPrompt.value else ""),
                Message("system", characterPrompt), UserMessage(userMessage)]
  {
  }

  function Min(a: int, b: int): int {
    if a <= b then a else b
  }

  /** The history after a turn: the user and assistant messages appended,
      then only the newest `HistoryCap` entries kept. */
  function KeepRecent(history: seq<Message>, userMessage: string, reply: string): (r: seq<Message>)
    ensures |r| == Min(|history| + 2, HistoryCap)
    ensures r == (history + [UserMessage(userMessage), AssistantMessage(reply)])[|history| + 2 - |r|..]
  {
    var appended := history + [UserMessage(userMessage), AssistantMessage(reply)];
    if |appended| > HistoryCap then appended[|appended| - HistoryCap..] else appended
  }

  /** The kept history ends with the new exchange; nothing is dropped while
      the old history has at most eight entries; from a full history the
      oldest exchange is dropped. */
  lemma KeepRecentKeeps(history: seq<Message>, userMessage: string, reply: string)
    ensures var r := KeepRecent(history, userMessage, reply);
      var pair := [UserMessage(userMessage), AssistantMessage(reply)];
      && r[|r| - 2..] == pair
      && (|history| + 2 <= HistoryCap ==> r == history + pair)
      && (|history| == HistoryCap ==> r == history[2..] + pair)
  {
    var r := KeepRecent(history, userMessage, reply);
    var pair := [UserMessage(userMessage), AssistantMessage(reply)];
    var appended := history + pair;
    assert r[|r| - 2..] == appended[|appended| - 2..];
    assert appended[|appended| - 2..] == pair;
    if |history| == HistoryCap {
      assert appended[2..] == history[2..] + pair;
    }
  }

  /** The history a (client, character) pair holds after a run of
      successful turns, each given as (user message, reply), starting
      from none. */
  function Replay(turns: seq<(string, string)>): seq<Message> {
    if turns == [] then []
    else
      var last := turns[|turns| - 1];
      KeepRecent(Replay(turns[..|turns| - 1]), last.0, last.1)
  }

  /** After `n` successful turns the history holds `min(2n, 10)` entries,
      ending with the latest exchange. */
  lemma {:induction false} ReplayLength(turns: seq<(string, string)>)
    ensures |Replay(turns)| == Min(2 * |turns|, HistoryCap)
    ensures turns != [] ==> Replay(turns)[|Replay(turns)| - 1] == AssistantMessage(turns[|turns| - 1].1)
  {
    if turns != [] {
      var last := turns[|turns| - 1];
      ReplayLength(turns[..|turns| - 1]);
      KeepRecentKeeps(Replay(turns[..|turns| - 1]), last.0, last.1);
    }
  }

  // ---------------------------------------------------------------------
  // The chat endpoint
  // ---------------------------------------------------------------------

  /** The decoded JSON body of a chat request; a field that is absent or
      null is None. */
  datatype ChatRequest = ChatRequest(characterId: Option<string>, userMessage: Option<string>, fingerprint: Option<string>)

  predicate HasRequiredFields(req: ChatRequest) {
    Truthy(req.characterId) && Truthy(req.userMessage) && Truthy(req.fingerprint)
  }

  /** What the upstream completion service answers. */
  datatype Completion = Completed(message: string) | Failed

  /** One upstream request: the credential and the message list. */
  datatype Call = Call(apiKey: string, messages: seq<Message>)

  datatype ChatResponse =
    | Reply(message: string, remainingChats: nat)
    | MissingFields
    | LimitExceeded
    | ConfigurationError
    | AiServiceError
    | InternalError
  {
    /** The HTTP status of the response. */
    function Status(): nat {
      match this
      case Reply(_, _) => 200
      case MissingFields => 400
      case LimitExceeded => 429
      case _ => 500
    }

    /** The `error` field of the JSON body; empty for a reply. */
    function Error(): string {
      match this
      case Reply(_, _) => ""
      case MissingFields => "Missing required fields"
      case LimitExceeded => "Daily limit exceeded"
      case ConfigurationError => "Configuration error"
      case AiServiceError => "AI service error"
      case InternalError => "Internal server error"
    }

    /** The user-facing `message` an error body carries besides `error`:
        only the 429 has one. */
    function Notice(): string {
      if LimitExceeded? then LimitMessage else ""
    }
  }

  /** The user-facing `message` of the 429 response. */
  const LimitMessage: string := "本日のチャットは終了しました。また明日お話しましょうね！"

  /** Everything a chat turn produces: the response, the upstream call made
      (None if none), the store accesses in order, and the new store. */
  datatype Outcome = Outcome(response: ChatResponse, call: Option<Call>, accesses: seq<Access>, store: map<string, string>)

  predicate OnlyReads(accesses: seq<Access>) {
    forall i :: 0 <= i < |accesses| ==> accesses[i].Get?
  }

  /** The history a stored value stands for: empty when absent or empty,
      otherwise `JSON.parse` of it (None where that throws). */
  function LoadedHistory(stored: Option<string>): Option<seq<Message>> {
    if Truthy(stored) then ParseHistory(stored.value) else Some([])
  }

  /** A history key never written holds the empty history, and one that
      was written holds what was written. */
  lemma LoadedHistoryOfSaved(h: seq<Message>)
    ensures LoadedHistory(None) == Some([])
    ensures LoadedHistory(Some(StringifyHistory(h))) == Some(h)
  {
    HistoryRoundTrip(h);
  }

  /** One run of `handleChatRequest` on a store holding `data`. */
  function ChatTurn(data: map<string, string>, req: ChatRequest, checkDay: string, commitDay: string,
                    upstream: Call -> Completion): (o: Outcome)
    ensures o.response.MissingFields? <==> !HasRequiredFields(req)
    ensures o.response.MissingFields? ==> o.accesses == [] && o.call == None
    ensures !o.response.Reply? ==> o.store == data && OnlyReads(o.accesses)
    ensures o.call.Some? ==> o.response.Reply? || o.response.AiServiceError?
    ensures o.response.Reply? || o.response.AiServiceError? ==> o.call.Some?
    ensures o.response.Reply? ==> upstream(o.call.value) == Completed(o.response.message)
    ensures o.response.AiServiceError? ==> upstream(o.call.value) == Failed
  {
    if !HasRequiredFields(req) then Outcome(MissingFields, None, [], data)
    else
      var characterId, userMessage, fingerprint := req.characterId.value, req.userMessage.value, req.fingerprint.value;
      var usageKey := UsageKey(fingerprint, checkDay);
      var count := StoredCount(Lookup(data, usageKey));
      var checked := [Access.Get(usageKey)];
      if !UnderLimit(count) then Outcome(LimitExceeded, None, checked, data)
      else
        var characterPrompt := Lookup(data, CharacterKey(characterId));
        var globalPrompt := Lookup(data, GlobalPromptKey);
        var apiKey := Lookup(data, ApiKeyKey);
        var configured := [Access.Get(usageKey), Access.Get(CharacterKey(characterId)), Access.Get(GlobalPromptKey), Access.Get(ApiKeyKey)];
        if !Truthy(characterPrompt) || !Truthy(apiKey) then Outcome(ConfigurationError, None, configured, data)
        else
          var historyKey := HistoryKey(fingerprint, characterId);
          var loaded := [Access.Get(usageKey), Access.Get(CharacterKey(characterId)), Access.Get(GlobalPromptKey),
                         Access.Get(ApiKeyKey), Access.Get(historyKey)];
          var history := LoadedHistory(Lookup(data, historyKey));
          if history.None? then Outcome(InternalError, None, loaded, data)
          else
            var call := Call(apiKey.value, BuildMessages(globalPrompt, characterPrompt.value, history.value, userMessage));
            var completion := upstream(call);
            if completion.Failed? then Outcome(AiServiceError, Some(call), loaded, data)
            else
              var saved := SaveTurn(data, fingerprint, characterId, history.value, userMessage, completion.message, commitDay);
              Outcome(Reply(completion.message, ChatRemaining(count.v)), Some(call), loaded + saved.accesses, saved.store)
  }

  /** The writes of a successful turn and the store they leave. */
  datatype Effect = Effect(accesses: seq<Access>, store: map<string, string>)

  /** The commit of a successful turn on a store holding `data`: the
      history with the new exchange is written, then the usage record of
      `commitDay` is incremented. */
  function SaveTurn(data: map<string, string>, fingerprint: string, characterId: string, history: seq<Message>,
                    userMessage: string, reply: string, commitDay: string): (e: Effect)
    ensures e.store.Keys == data.Keys + {HistoryKey(fingerprint, characterId), UsageKey(fingerprint, commitDay)}
  {
    var historyKey := HistoryKey(fingerprint, characterId);
    var historyJson := StringifyHistory(KeepRecent(history, userMessage, reply));
    var saved := data[historyKey := historyJson];
    var commitKey := UsageKey(fingerprint, commitDay);
    var next := NumToString(NextCount(Lookup(saved, commitKey)));
    Effect([Access.Put(historyKey, historyJson, Ttl), Access.Get(commitKey), Access.Put(commitKey, next, Ttl)],
           saved[commitKey := next])
  }

  /** The commit writes exactly two keys: the history key, which then
      reads back as the kept history, and the usage record, which then
      reads back one more than before. Every other key is unchanged. */
  lemma SaveTurnWrites(data: map<string, string>, fingerprint: string, characterId: string, history: seq<Message>,
                       userMessage: string, reply: string, commitDay: string)
    ensures var e := SaveTurn(data, fingerprint, characterId, history, userMessage, reply, commitDay);
      var historyKey, commitKey := HistoryKey(fingerprint, characterId), UsageKey(fingerprint, commitDay);
      && e.store.Keys == data.Keys + {historyKey, commitKey}
      && (forall k :: k in data && k != historyKey && k != commitKey ==> e.store[k] == data[k])
      && ParseHistory(e.store[historyKey]) == Some(KeepRecent(history, userMessage, reply))
      && StoredCount(Lookup(e.store, commitKey)) == Succ(StoredCount(Lookup(data, commitKey)))
  {
    var historyKey, commitKey := HistoryKey(fingerprint, characterId), UsageKey(fingerprint, commitDay);
    var kept := KeepRecent(history, userMessage, reply);
    KeysDistinct(fingerprint, commitDay, fingerprint, characterId, characterId);
    var saved := data[historyKey := StringifyHistory(kept)];
    assert Lookup(saved, commitKey) == Lookup(data, commitKey);
    HistoryRoundTrip(kept);
    IncrementReadsBack(Lookup(data, commitKey));
  }

  /** `handleChatRequest` for a POST whose body decoded to `req`. */
  method HandleChatRequest(kv: Store, req: ChatRequest, checkDay: string, commitDay: string,
                           upstream: Call -> Completion) returns (response: ChatResponse, call: Option<Call>)
    modifies kv
    ensures var o := ChatTurn(old(kv.data), req, checkDay, commitDay, upstream);
      response == o.response && call == o.call && kv.data == o.store && kv.trace == old(kv.trace) + o.accesses
  {
    call := None;
    if !Truthy(req.characterId) || !Truthy(req.userMessage) || !Truthy(req.fingerprint) {
      return MissingFields, None;
    }
    var characterId, userMessage, fingerprint := req.characterId.value, req.userMessage.value, req.fingerprint.value;
    ghost var start, data := kv.trace, kv.data;

    var usageCheck := CheckUsageLimit(kv, fingerprint, checkDay);
    if !usageCheck.allowed {
      return LimitExceeded, None;
    }

    var characterPrompt := kv.Get(CharacterKey(characterId));
    var globalPrompt := kv.Get(GlobalPromptKey);
    var apiKey := kv.Get(ApiKeyKey);
    if !Truthy(characterPrompt) || !Truthy(apiKey) {
      return ConfigurationError, None;
    }

    var historyKey := HistoryKey(fingerprint, characterId);
    var historyData := kv.Get(historyKey);
    ghost var loaded := [Access.Get(UsageKey(fingerprint, checkDay)), Access.Get(CharacterKey(characterId)),
                         Access.Get(GlobalPromptKey), Access.Get(ApiKeyKey), Access.Get(historyKey)];
    assert kv.trace == start + loaded;
    var parsed := LoadedHistory(historyData);
    if parsed.None? {
      // JSON.parse threw; the catch block answers 500
      return InternalError, None;
    }
    var history := parsed.value;

    var messages := BuildMessages(globalPrompt, characterPrompt.value, history, userMessage);
    call := Some(Call(apiKey.value, messages));
    var aiResponse := upstream(call.value);
    if aiResponse.Failed? {
      return AiServiceError, call;
    }

    SaveHistoryAndCount(kv, fingerprint, characterId, history, userMessage, aiResponse.message, commitDay);
    ghost var e := SaveTurn(data, fingerprint, characterId, history, userMessage, aiResponse.message, commitDay);
    TraceRegroup(start, loaded, e.accesses);
    ChatTurnReplies(data, req, checkDay, commitDay, upstream, aiResponse.message);

    response := Reply(aiResponse.message, ChatRemaining(usageCheck.count.v));
  }

  /** Appending accesses in two steps or in one gives the same trace. */
  lemma TraceRegroup(start: seq<Access>, done: seq<Access>, more: seq<Access>)
    ensures start + done + more == start + (done + more)
  {
  }

  /** The outcome of a turn that gets past every check and receives
      `reply`. */
  lemma ChatTurnReplies(data: map<string, string>, req: ChatRequest, checkDay: string, commitDay: string,
                        upstream: Call -> Completion, reply: string)
    requires HasRequiredFields(req)
    requires var fp, cid := req.fingerprint.value, req.characterId.value;
      && UnderLimit(StoredCount(Lookup(data, UsageKey(fp, checkDay))))
      && Truthy(Lookup(data, CharacterKey(cid))) && Truthy(Lookup(data, ApiKeyKey))
      && LoadedHistory(Lookup(data, HistoryKey(fp, cid))).Some?
      && upstream(Call(Lookup(data, ApiKeyKey).value,
                       BuildMessages(Lookup(data, GlobalPromptKey), Lookup(data, CharacterKey(cid)).value,
                                     LoadedHistory(Lookup(data, HistoryKey(fp, cid))).value, req.userMessage.value)))
         == Completed(reply)
    ensures var fp, cid, msg := req.fingerprint.value, req.characterId.value, req.userMessage.value;
      var history := LoadedHistory(Lookup(data, HistoryKey(fp, cid))).value;
      var call := Call(Lookup(data, ApiKeyKey).value,
                       BuildMessages(Lookup(data, GlobalPromptKey), Lookup(data, CharacterKey(cid)).value, history, msg));
      var e := SaveTurn(data, fp, cid, history, msg, reply, commitDay);
      ChatTurn(data, req, checkDay, commitDay, upstream)
      == Outcome(Reply(reply, ChatRemaining(StoredCount(Lookup(data, UsageKey(fp, checkDay))).v)), Some(call),
                 [Access.Get(UsageKey(fp, checkDay)), Access.Get(CharacterKey(cid)), Access.Get(GlobalPromptKey),
                  Access.Get(ApiKeyKey), Access.Get(HistoryKey(fp, cid))] + e.accesses,
                 e.store)
  {
  }

  /** The tail of a successful `handleChatRequest`: push the exchange,
      keep the newest ten entries, save them, then count the turn. */
  method SaveHistoryAndCount(kv: Store, fingerprint: string, characterId: string, history: seq<Message>,
                             userMessage: string, reply: string, commitDay: string)
    modifies kv
    ensures var e := SaveTurn(old(kv.data), fingerprint, characterId, history, userMessage, reply, commitDay);
      kv.data == e.store && kv.trace == old(kv.trace) + e.accesses
  {
    var historyKey := HistoryKey(fingerprint, characterId);
    var kept := history + [UserMessage(userMessage), AssistantMessage(reply)];
    if |kept| > HistoryCap {
      kept := kept[|kept| - HistoryCap..];
    }
    assert kept == KeepRecent(history, userMessage, reply);
    ghost var e := SaveTurn(kv.data, fingerprint, characterId, history, userMessage, reply, commitDay);
    ghost var trace := kv.trace;
    kv.Put(historyKey, StringifyHistory(kept), Ttl);
    IncrementUsageCount(kv, fingerprint, commitDay);
    assert kv.trace == trace + e.accesses;
  }

  // ---------------------------------------------------------------------
  // Properties of a chat turn
  // ---------------------------------------------------------------------

  /** A request missing a field, or with an empty one, is answered 400
      before the store is touched. */
  lemma ChatMissingFields(data: map<string, string>, req: ChatRequest, checkDay: string, commitDay: string,
                          upstream: Call -> Completion)
    requires !Truthy(req.characterId) || !Truthy(req.userMessage) || !Truthy(req.fingerprint)
    ensures var o := ChatTurn(data, req, checkDay, commitDay, upstream);
      && o.response.Status() == 400 && o.response.Error() == "Missing required fields"
      && o.accesses == [] && o.call == None && o.store == data
  {
  }

  /** A request with all fields passes the quota exactly when the stored
      count for the check day is below the limit; a refused turn reads only
      that key, calls nothing upstream and writes nothing. */
  lemma ChatQuotaGate(data: map<string, string>, req: ChatRequest, checkDay: string, commitDay: string,
                      upstream: Call -> Completion)
    requires HasRequiredFields(req)
    ensures var o := ChatTurn(data, req, checkDay, commitDay, upstream);
      var usageKey := UsageKey(req.fingerprint.value, checkDay);
      && (o.response.LimitExceeded? <==> !UnderLimit(StoredCount(Lookup(data, usageKey))))
      && (o.response.LimitExceeded? ==> o.accesses == [Access.Get(usageKey)] && o.call == None && o.store == data)
      && (o.response.LimitExceeded? ==>
            o.response.Status() == 429 && o.response.Error() == "Daily limit exceeded" && o.response.Notice() == LimitMessage)
  {
  }

  /** A missing character prompt or API key ends an admitted turn with a
      configuration error before the history is read; a missing global
      prompt does not. */
  lemma ChatConfiguration(data: map<string, string>, req: ChatRequest, checkDay: string, commitDay: string,
                          upstream: Call -> Completion)
    requires HasRequiredFields(req)
    requires UnderLimit(StoredCount(Lookup(data, UsageKey(req.fingerprint.value, checkDay))))
    ensures var o := ChatTurn(data, req, checkDay, commitDay, upstream);
      var cid := req.characterId.value;
      && (o.response.ConfigurationError? <==> !Truthy(Lookup(data, CharacterKey(cid))) || !Truthy(Lookup(data, ApiKeyKey)))
      && (o.response.ConfigurationError? ==> o.response.Status() == 500 && o.response.Error() == "Configuration error")
      && (o.response.ConfigurationError? ==>
            o.accesses == [Access.Get(UsageKey(req.fingerprint.value, checkDay)), Access.Get(CharacterKey(cid)),
                           Access.Get(GlobalPromptKey), Access.Get(ApiKeyKey)])
  {
  }

  /** A stored history that does not parse ends the turn with a 500 before
      anything is sent upstream; it is not taken for an empty history. */
  lemma ChatUnreadableHistory(data: map<string, string>, req: ChatRequest, checkDay: string, commitDay: string,
                              upstream: Call -> Completion)
    requires HasRequiredFields(req)
    requires UnderLimit(StoredCount(Lookup(data, UsageKey(req.fingerprint.value, checkDay))))
    requires Truthy(Lookup(data, CharacterKey(req.characterId.value))) && Truthy(Lookup(data, ApiKeyKey))
    ensures var o := ChatTurn(data, req, checkDay, commitDay, upstream);
      var stored := Lookup(data, HistoryKey(req.fingerprint.value, req.characterId.value));
      && (o.response.InternalError? <==> Truthy(stored) && ParseHistory(stored.value).None?)
      && (o.response.InternalError? ==>
            o.call == None && o.response.Status() == 500 && o.response.Error() == "Internal server error")
  {
  }

  /** Whenever the turn reaches the upstream service it sends the API key
      and exactly [global prompt or "", character prompt, history..., user
      turn]. */
  lemma ChatPrompt(data: map<string, string>, req: ChatRequest, checkDay: string, commitDay: string,
                   upstream: Call -> Completion)
    ensures var o := ChatTurn(data, req, checkDay, commitDay, upstream);
      o.call.Some? ==>
        var history := LoadedHistory(Lookup(data, HistoryKey(req.fingerprint.value, req.characterId.value)));
        && history.Some?
        && o.call.value.apiKey == Lookup(data, ApiKeyKey).value
        && o.call.value.messages
           == BuildMessages(Lookup(data, GlobalPromptKey), Lookup(data, CharacterKey(req.characterId.value)).value,
                            history.value, req.userMessage.value)
  {
  }

  /** A failed upstream call answers 500 and leaves every key as it was. */
  lemma ChatUpstreamFailure(data: map<string, string>, req: ChatRequest, checkDay: string, commitDay: string,
                            upstream: Call -> Completion)
    ensures var o := ChatTurn(data, req, checkDay, commitDay, upstream);
      o.call.Some? && upstream(o.call.value) == Failed ==>
        && o.response == AiServiceError && o.response.Status() == 500
        && o.response.Error() == "AI service error" && o.store == data
  {
  }

  /** A successful turn writes exactly two keys: the history, now the
      newest entries of the old history plus the new exchange, and the
      commit day's usage record, now one more than before. Every other key,
      including every other client's usage record, is unchanged. */
  lemma ChatCommit(data: map<string, string>, req: ChatRequest, checkDay: string, commitDay: string,
                   upstream: Call -> Completion)
    ensures var o := ChatTurn(data, req, checkDay, commitDay, upstream);
      o.response.Reply? ==>
        var fp, cid, msg := req.fingerprint.value, req.characterId.value, req.userMessage.value;
        var historyKey, commitKey := HistoryKey(fp, cid), UsageKey(fp, commitDay);
        var before := LoadedHistory(Lookup(data, historyKey));
        && before.Some?
        && o.store.Keys == data.Keys + {historyKey, commitKey}
        && (forall k :: k in data && k != historyKey && k != commitKey ==> o.store[k] == data[k])
        && ParseHistory(o.store[historyKey]) == Some(KeepRecent(before.value, msg, o.response.message))
        && StoredCount(Lookup(o.store, commitKey)) == Succ(StoredCount(Lookup(data, commitKey)))
        && o.response.remainingChats == ChatRemaining(StoredCount(Lookup(data, UsageKey(fp, checkDay))).v)
  {
    var o := ChatTurn(data, req, checkDay, commitDay, upstream);
    if o.response.Reply? {
      var fp, cid, msg := req.fingerprint.value, req.characterId.value, req.userMessage.value;
      ChatReplySaves(data, req, checkDay, commitDay, upstream);
      var before := LoadedHistory(Lookup(data, HistoryKey(fp, cid))).value;
      SaveTurnWrites(data, fp, cid, before, msg, o.response.message, commitDay);
    }
  }

  /** A reply comes from a turn that loaded a history and committed
      `SaveTurn` of it. */
  lemma ChatReplySaves(data: map<string, string>, req: ChatRequest, checkDay: string, commitDay: string,
                       upstream: Call -> Completion)
    ensures var o := ChatTurn(data, req, checkDay, commitDay, upstream);
      o.response.Reply? ==>
        var fp, cid := req.fingerprint.value, req.characterId.value;
        var before := LoadedHistory(Lookup(data, HistoryKey(fp, cid)));
        var count := StoredCount(Lookup(data, UsageKey(fp, checkDay)));
        && before.Some? && UnderLimit(count)
        && o.store == SaveTurn(data, fp, cid, before.value, req.userMessage.value, o.response.message, commitDay).store
        && o.response.remainingChats == ChatRemaining(count.v)
  {
    var o := ChatTurn(data, req, checkDay, commitDay, upstream);
    if o.response.Reply? {
      var fp, cid, msg := req.fingerprint.value, req.characterId.value, req.userMessage.value;
      var count := StoredCount(Lookup(data, UsageKey(fp, checkDay)));
      var characterPrompt, apiKey := Lookup(data, CharacterKey(cid)), Lookup(data, ApiKeyKey);
      var history := LoadedHistory(Lookup(data, HistoryKey(fp, cid)));
      assert HasRequiredFields(req) && UnderLimit(count) && Truthy(characterPrompt) && Truthy(apiKey) && history.Some?;
      var call := Call(apiKey.value, BuildMessages(Lookup(data, GlobalPromptKey), characterPrompt.value, history.value, msg));
      assert o.call == Some(call);
      var reply := o.response.message;
      assert upstream(call) == Completed(reply);
      ChatTurnReplies(data, req, checkDay, commitDay, upstream, reply);
    }
  }

  /** A successful turn leaves a history of at most ten entries that ends
      with the exchange just made. */
  lemma ChatHistoryBounded(data: map<string, string>, req: ChatRequest, checkDay: string, commitDay: string,
                           upstream: Call -> Completion)
    ensures var o := ChatTurn(data, req, checkDay, commitDay, upstream);
      o.response.Reply? ==>
        var h := ParseHistory(o.store[HistoryKey(req.fingerprint.value, req.characterId.value)]);
        && h.Some? && 2 <= |h.value| <= HistoryCap
        && h.value[|h.value| - 2..] == [UserMessage(req.userMessage.value), AssistantMessage(o.response.message)]
  {
    var o := ChatTurn(data, req, checkDay, commitDay, upstream);
    if o.response.Reply? {
      var before := LoadedHistory(Lookup(data, HistoryKey(req.fingerprint.value, req.characterId.value))).value;
      ChatCommit(data, req, checkDay, commitDay, upstream);
      KeepRecentKeeps(before, req.userMessage.value, o.response.message);
    }
  }

  /** A turn counts against its commit day only: every other day's usage
      record of the client is left as it was, so a day with no record yet
      still admits the client afterwards. */
  lemma ChatKeepsOtherDays(data: map<string, string>, req: ChatRequest, checkDay: string, commitDay: string,
                           upstream: Call -> Completion, otherDay: string)
    requires otherDay != commitDay
    ensures var o := ChatTurn(data, req, checkDay, commitDay, upstream);
      o.response.Reply? ==>
        var usageKey := UsageKey(req.fingerprint.value, otherDay);
        && Lookup(o.store, usageKey) == Lookup(data, usageKey)
        && (usageKey !in data ==> UnderLimit(StoredCount(Lookup(o.store, usageKey))))
  {
    var o := ChatTurn(data, req, checkDay, commitDay, upstream);
    if o.response.Reply? {
      var fp, cid := req.fingerprint.value, req.characterId.value;
      var usageKey, historyKey, commitKey := UsageKey(fp, otherDay), HistoryKey(fp, cid), UsageKey(fp, commitDay);
      ChatCommit(data, req, checkDay, commitDay, upstream);
      KeysDistinct(fp, otherDay, fp, cid, cid);
      if usageKey == commitKey {
        UsageKeyPerDay(fp, otherDay, commitDay);
      }
      UntouchedKey(data, o.store, historyKey, commitKey, usageKey);
      StoredCountReadsWritten(Int(0));
    }
  }

  /** A key other than the two a commit writes reads the same after it. */
  lemma UntouchedKey(data: map<string, string>, store: map<string, string>, historyKey: string, commitKey: string,
                     key: string)
    requires store.Keys == data.Keys + {historyKey, commitKey}
    requires forall k :: k in data && k != historyKey && k != commitKey ==> store[k] == data[k]
    requires key != historyKey && key != commitKey
    ensures Lookup(store, key) == Lookup(data, key)
  {
  }

  // ---------------------------------------------------------------------
  // The remaining-chats endpoint
  // ---------------------------------------------------------------------

  datatype RemainingResponse = Remaining(remainingChats: Num) | MissingFingerprint
  {
    function Status(): nat {
      if MissingFingerprint? then 400 else 200
    }
  }

  /** What `/api/remaining` answers on a store holding `data`. */
  function RemainingQuery(data: map<string, string>, fingerprint: Option<string>, today: string): (r: RemainingResponse)
    ensures r.MissingFingerprint? <==> !Truthy(fingerprint)
    ensures r.Status() == 400 <==> !Truthy(fingerprint)
    ensures r.Remaining? && StoredCount(Lookup(data, UsageKey(fingerprint.value, today))).Int?
            && StoredCount(Lookup(data, UsageKey(fingerprint.value, today))).v >= 0
            ==> r.remainingChats.Int? && 0 <= r.remainingChats.v <= DailyLimit
    ensures r.Remaining? ==> r.remainingChats == RemainingOf(StoredCount(Lookup(data, UsageKey(fingerprint.value, today))))
  {
    if !Truthy(fingerprint) then MissingFingerprint
    else Remaining(RemainingOf(StoredCount(Lookup(data, UsageKey(fingerprint.value, today)))))
  }

  /** `handleRemainingRequest` for a POST whose body decoded to
      `fingerprint`: it reads the usage record and writes nothing. */
  method HandleRemainingRequest(kv: Store, fingerprint: Option<string>, today: string) returns (response: RemainingResponse)
    modifies kv`trace
    ensures response == RemainingQuery(kv.data, fingerprint, today)
    ensures kv.data == old(kv.data)
    ensures |old(kv.trace)| <= |kv.trace| <= |old(kv.trace)| + 1 && OnlyReads(kv.trace[|old(kv.trace)|..])
  {
    if !Truthy(fingerprint) {
      return MissingFingerprint;
    }
    var usageCheck := CheckUsageLimit(kv, fingerprint.value, today);
    response := Remaining(RemainingOf(usageCheck.count));
  }

  /** Right after a successful turn (same day for check and increment),
      `/api/remaining` reports exactly the `remainingChats` the turn
      answered. */
  lemma ChatThenRemaining(data: map<string, string>, req: ChatRequest, day: string, upstream: Call -> Completion)
    ensures var o := ChatTurn(data, req, day, day, upstream);
      o.response.Reply? ==>
        RemainingQuery(o.store, req.fingerprint, day) == Remaining(Int(o.response.remainingChats))
  {
    ChatCommit(data, req, day, day, upstream);
  }

  // ---------------------------------------------------------------------
  // Static files: path and content type
  // ---------------------------------------------------------------------

  /** The path served: `/` stands for `/index.html`. */
  function ServedPath(pathname: string): (p: string)
    ensures pathname == "/" ==> p == "/index.html"
    ensures pathname != "/" ==> p == pathname
  {
    if pathname == "/" then "/index.html" else pathname
  }

  /** `pathname.substring(pathname.lastIndexOf('.'))`: the suffix from the
      last dot, or the whole path when there is no dot. */
  function Extension(pathname: string): (ext: string)
    ensures '.' !in pathname ==> ext == pathname
    ensures '.' in pathname ==> ext != [] && ext[0] == '.' && '.' !in ext[1..]
    ensures |ext| <= |pathname| && ext == pathname[|pathname| - |ext|..]
  {
    var i := LastIndexOf(pathname, '.');
    var ext := SubstringFrom(pathname, i);
    assert '.' in pathname ==> ext[1..] == pathname[i + 1..];
    ext
  }

  /** The `contentTypes` table. */
  const ContentTypes: map<string, string> := map[
    ".html" := "text/html; charset=utf-8",
    ".css" := "text/css; charset=utf-8",
    ".js" := "application/javascript; charset=utf-8",
    ".png" := "image/png",
    ".jpg" := "image/jpeg",
    ".jpeg" := "image/jpeg",
    ".gif" := "image/gif",
    ".svg" := "image/svg+xml"
  ]

  const ImageExtensions: seq<string> := [".png", ".jpg", ".jpeg", ".gif", ".svg"]

  /** `contentTypes[extension] || 'text/plain'`. */
  function ContentType(ext: string): (t: string)
    ensures ext in ContentTypes ==> t == ContentTypes[ext]
    ensures ext !in ContentTypes ==> t == "text/plain"
  {
    if ext in ContentTypes then ContentTypes[ext] else "text/plain"
  }

  /** `['.png', '.jpg', '.jpeg', '.gif', '.svg'].includes(extension)`:
      every such extension has its own entry in the table. */
  predicate IsImage(ext: string)
    ensures IsImage(ext) ==> ext in ContentTypes && ext[0] == '.'
  {
    ext in ImageExtensions
  }

  /** Exactly the extensions fetched as binary are those served with an
      `image/` content type. */
  lemma ImageIffImageType(ext: string)
    ensures IsImage(ext) <==> "image/" <= ContentType(ext)
  {
    var t := ContentType(ext);
    if IsImage(ext) {
      var sub := if ext == ".png" then "png" else if ext == ".jpg" || ext == ".jpeg" then "jpeg"
                 else if ext == ".gif" then "gif" else "svg+xml";
      assert t == "image/" + sub;
      PrefixThenRest("image/", sub);
    } else {
      assert t[0] != 'i' by {
        assert ext in ContentTypes ==> ext == ".html" || ext == ".css" || ext == ".js";
      }
    }
  }

  /** A key of the content-type table starts with a dot, so a path with
      no dot falls back to `text/plain`. */
  lemma NoDotPlainText(path: string)
    requires '.' !in path
    ensures ContentType(Extension(path)) == "text/plain"
  {
  }

  /** What `handleStaticFiles` decides before it reads the store: the key
      it reads, the content type it answers with, and whether it reads the
      value as binary. */
  datatype StaticPlan = StaticPlan(fileKey: string, contentType: string, binary: bool)

  function PlanStatic(pathname: string): (p: StaticPlan)
    ensures p.fileKey == "static:" + ServedPath(pathname)
    ensures p.contentType == "text/plain" || p.contentType in ContentTypes.Values
    ensures '.' !in ServedPath(pathname) ==> p.contentType == "text/plain" && !p.binary
    ensures pathname == "/" ==> p.contentType == "text/html; charset=utf-8" && !p.binary
    ensures p.binary <==> "image/" <= p.contentType
    ensures var ext := Extension(ServedPath(pathname));
      && (ext in ContentTypes ==> p.contentType == ContentTypes[ext])
      && (ext !in ContentTypes ==> p.contentType == "text/plain")
      && (p.binary <==> ext in ImageExtensions)
  {
    var path := ServedPath(pathname);
    var extension := Extension(path);
    ImageIffImageType(extension);
    ContentTypeKnown(extension);
    if '.' !in path then NoDotPlainText(path); PlanFor(path, extension)
    else if pathname == "/" then IndexIsHtml(); PlanFor(path, extension)
    else PlanFor(path, extension)
  }

  function PlanFor(path: string, extension: string): StaticPlan {
    StaticPlan("static:" + path, ContentType(extension), IsImage(extension))
  }

  /** Every content type answered is `text/plain` or a value of the table. */
  lemma ContentTypeKnown(ext: string)
    ensures ContentType(ext) == "text/plain" || ContentType(ext) in ContentTypes.Values
  {
    if ext in ContentTypes {
      assert ContentTypes[ext] in ContentTypes.Values;
    }
  }

  /** The root path is served as HTML. */
  lemma IndexIsHtml()
    ensures Extension("/index.html") == ".html"
    ensures ContentType(".html") == "text/html; charset=utf-8" && !IsImage(".html")
  {
    var path := "/index.html";
    assert path[6] == '.' && '.' !in path[7..];
    assert LastIndexOf(path, '.') == 6;
  }
}
