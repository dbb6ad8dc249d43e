/**
 * When `prepare` ends with an exception that is not an ApiError, so that the client gets a 500
 * instead of being told what is wrong.
 */
module Crashes {
  import opened Wrappers
  import opened Json
  import opened Translate
  import Order

  predicate TooDeepArguments(call: Json, decode: Decoder) {
    var f := FunctionOf(call);
    && f.Obj? && Get(f.fields, "name").Str?
    && var arguments := Get(f.fields, "arguments");
       arguments.Str? && arguments.s != "" && decode(arguments.s).TooDeep?
  }

  /** Good calls, then one whose arguments are nested too deep. */
  ghost predicate DeepCalls(calls: Json, decode: Decoder) {
    && calls.Arr?
    && exists j ::
      && 0 <= j < |calls.items| && TooDeepArguments(calls.items[j], decode)
      && forall k :: 0 <= k < j ==> GoodCall(calls.items[k], decode)
  }

  predicate KnownRole(m: Json) {
    m.Obj? && Get(m.fields, "role").Str? && Get(m.fields, "role").s in MESSAGE_ROLES
  }

  /** A role that cannot be looked up in a set, or arguments nested too deep in an otherwise good message. */
  ghost predicate CrashingMessage(m: Json, decode: Decoder) {
    && m.Obj?
    && var role := Get(m.fields, "role");
       role.Arr? || role.Obj?
       || (KnownRole(m) && GoodContent(Get(m.fields, "content")) && DeepCalls(Get(m.fields, "tool_calls"), decode))
  }

  ghost predicate GoodMessage(m: Json, decode: Decoder) {
    KnownRole(m) && GoodContent(Get(m.fields, "content")) && GoodCalls(Get(m.fields, "tool_calls"), decode)
  }

  /** The first message that is not good is one of those. */
  ghost predicate CrashingMessages(value: Json, decode: Decoder) {
    && value.Arr?
    && exists i ::
      && 0 <= i < |value.items| && CrashingMessage(value.items[i], decode)
      && forall k :: 0 <= k < i ==> GoodMessage(value.items[k], decode)
  }

  predicate Overflowing(j: Json) {
    j.Int? && Overflows(j.n)
  }

  /** The first number field that is not good is too large for a float. */
  ghost predicate CrashingNumbers(b: Fields, fields: seq<NumberField>) {
    exists i ::
      && 0 <= i < |fields| && Overflowing(Get(b, fields[i].name))
      && forall k :: 0 <= k < i ==> GoodNumber(b, fields[k])
  }

  predicate GoodNumber(b: Fields, f: NumberField) {
    var j := Get(b, f.name);
    j.Null? || (!Overflowing(j) && InRange(j, f.low, f.high))
  }

  predicate GoodEntry(fields: Fields, key: string) {
    var j := Get(fields, key);
    TokenId(key) && (j.Int? || j.Float?) && !Overflowing(j)
  }

  /** The first entry that is not good is a token id with a value too large for a float. */
  ghost predicate CrashingEntries(fields: Fields, keys: seq<string>) {
    exists i ::
      && 0 <= i < |keys| && TokenId(keys[i]) && Overflowing(Get(fields, keys[i]))
      && forall k :: 0 <= k < i ==> GoodEntry(fields, keys[k])
  }

  // ---- Part by part ----

  lemma CallCrashes(call: Json, where: string, decode: Decoder)
    ensures CallFault(call, where, decode) == Some(Crash) <==> TooDeepArguments(call, decode)
    ensures CallFault(call, where, decode) == None <==> GoodCall(call, decode)
  {
  }

  lemma {:induction false} CallsCrash(items: seq<Json>, j: nat, where: string, decode: Decoder)
    requires j <= |items| && forall k :: 0 <= k < j ==> GoodCall(items[k], decode)
    ensures CallsFaultFrom(items, j, where, decode) == Some(Crash) <==> DeepCalls(Arr(items), decode)
    decreases |items| - j
  {
    if j < |items| {
      CallCrashes(items[j], where, decode);
      hide CallFault;
      if CallFault(items[j], where, decode).Some? {
        FirstBadCall(items, j, where, decode);
      } else {
        CallsCrash(items, j + 1, where, decode);
      }
    } else {
      forall k | 0 <= k < |items| ensures !TooDeepArguments(items[k], decode) { CallCrashes(items[k], where, decode); }
    }
  }

  /** The first call that is not good decides. */
  lemma FirstBadCall(items: seq<Json>, j: nat, where: string, decode: Decoder)
    requires j < |items| && (forall k :: 0 <= k < j ==> GoodCall(items[k], decode)) && !GoodCall(items[j], decode)
    ensures DeepCalls(Arr(items), decode) <==> TooDeepArguments(items[j], decode)
  {
    hide GoodCall, TooDeepArguments;
    forall k | 0 <= k < j ensures !TooDeepArguments(items[k], decode) { CallCrashes(items[k], where, decode); }
  }

  lemma MessageCrashes(m: Json, i: nat, decode: Decoder)
    ensures MessageFault(m, i, decode) == Some(Crash) <==> CrashingMessage(m, decode)
    ensures MessageFault(m, i, decode) == None <==> GoodMessage(m, decode)
  {
    if m.Obj? {
      var calls := Get(m.fields, "tool_calls");
      CallsAreGood(calls, Where(i), decode);
      if calls.Arr? {
        CallsCrash(calls.items, 0, Where(i), decode);
        assert Arr(calls.items) == calls;
      }
      hide GoodContent, GoodCalls, DeepCalls, CallsFaultFrom;
    }
  }

  lemma {:induction false} MessagesCrash(items: seq<Json>, i: nat, decode: Decoder)
    requires i <= |items| && forall k :: 0 <= k < i ==> GoodMessage(items[k], decode)
    ensures FaultFrom(items, i, decode) == Some(Crash) <==> CrashingMessages(Arr(items), decode)
    decreases |items| - i
  {
    hide MessageFault, GoodMessage, CrashingMessage;
    forall k | 0 <= k < |items|
      ensures GoodMessage(items[k], decode) ==> !CrashingMessage(items[k], decode)
    {
      MessageCrashes(items[k], k, decode);
    }
    if i < |items| {
      MessageCrashes(items[i], i, decode);
      if GoodMessage(items[i], decode) { MessagesCrash(items, i + 1, decode); }
    }
  }

  lemma NumberCrashes(b: Fields, f: NumberField)
    ensures NumberFault(b, f) == Some(Crash) <==> Overflowing(Get(b, f.name))
    ensures NumberFault(b, f) == None <==> GoodNumber(b, f)
  {
    hide Overflows;
  }

  ghost predicate AllGood(b: Fields, fields: seq<NumberField>) {
    forall k :: 0 <= k < |fields| ==> GoodNumber(b, fields[k])
  }

  lemma OneMoreGood(b: Fields, before: seq<NumberField>, f: NumberField)
    ensures AllGood(b, before + [f]) <==> AllGood(b, before) && GoodNumber(b, f)
  {
    hide GoodNumber;
    var fields, n := before + [f], |before|;
    assert fields[n] == f && forall k :: 0 <= k < n ==> fields[k] == before[k];
    if AllGood(b, fields) {
      forall k | 0 <= k < n ensures GoodNumber(b, before[k]) { assert GoodNumber(b, fields[k]); }
    }
  }

  lemma OneMoreNumber(b: Fields, before: seq<NumberField>, f: NumberField)
    ensures CrashingNumbers(b, before + [f]) <==>
      CrashingNumbers(b, before) || (AllGood(b, before) && Overflowing(Get(b, f.name)))
  {
    hide GoodNumber, Overflowing;
    var fields, n := before + [f], |before|;
    assert fields[n] == f && forall k :: 0 <= k < n ==> fields[k] == before[k];
    if CrashingNumbers(b, before) {
      var i :| && 0 <= i < n && Overflowing(Get(b, before[i].name)) && forall k :: 0 <= k < i ==> GoodNumber(b, before[k]);
      assert Overflowing(Get(b, fields[i].name));
    }
    if CrashingNumbers(b, fields) {
      var i :| && 0 <= i <= n && Overflowing(Get(b, fields[i].name)) && forall k :: 0 <= k < i ==> GoodNumber(b, fields[k]);
      if i < n { assert Overflowing(Get(b, before[i].name)); }
    }
    if AllGood(b, before) && Overflowing(Get(b, f.name)) {
      assert Overflowing(Get(b, fields[n].name));
    }
  }

  lemma {:induction false} NumbersCrash(b: Fields, fields: seq<NumberField>)
    ensures NumbersFault(b, fields) == Some(Crash) <==> CrashingNumbers(b, fields)
    ensures NumbersFault(b, fields) == None <==> AllGood(b, fields)
    ensures AllGood(b, fields) ==> !CrashingNumbers(b, fields)
  {
    if fields != [] {
      hide CrashingNumbers, AllGood, NumberFault, GoodNumber, Overflowing;
      var before, last := fields[..|fields| - 1], fields[|fields| - 1];
      assert fields == before + [last];
      NumbersCrash(b, before);
      NumberCrashes(b, last);
      OneMoreGood(b, before, last);
      OneMoreNumber(b, before, last);
    }
  }

  lemma EntryCrashes(fields: Fields, key: string)
    ensures EntryFault(key, Get(fields, key)) == Some(Crash) <==> TokenId(key) && Overflowing(Get(fields, key))
    ensures EntryFault(key, Get(fields, key)) == None <==> GoodEntry(fields, key)
  {
    hide Overflows;
  }

  ghost predicate AllGoodEntries(fields: Fields, keys: seq<string>) {
    forall k :: 0 <= k < |keys| ==> GoodEntry(fields, keys[k])
  }

  lemma OneMoreEntry(fields: Fields, before: seq<string>, key: string)
    ensures AllGoodEntries(fields, before + [key]) <==> AllGoodEntries(fields, before) && GoodEntry(fields, key)
    ensures CrashingEntries(fields, before + [key]) <==>
      CrashingEntries(fields, before) || (AllGoodEntries(fields, before) && TokenId(key) && Overflowing(Get(fields, key)))
  {
    hide GoodEntry, TokenId, Overflowing;
    var keys, n := before + [key], |before|;
    assert keys[n] == key && forall k :: 0 <= k < n ==> keys[k] == before[k];
    if AllGoodEntries(fields, keys) {
      forall k | 0 <= k < n ensures GoodEntry(fields, before[k]) { assert GoodEntry(fields, keys[k]); }
    }
    if CrashingEntries(fields, before) {
      var i :| && 0 <= i < n && TokenId(before[i]) && Overflowing(Get(fields, before[i]))
               && forall k :: 0 <= k < i ==> GoodEntry(fields, before[k]);
      assert TokenId(keys[i]);
    }
    if AllGoodEntries(fields, before) && TokenId(key) && Overflowing(Get(fields, key)) {
      assert TokenId(keys[n]);
    }
  }

  lemma {:induction false} EntriesCrash(fields: Fields, keys: seq<string>)
    ensures EntriesFault(fields, keys) == Some(Crash) <==> CrashingEntries(fields, keys)
    ensures EntriesFault(fields, keys) == None <==> AllGoodEntries(fields, keys)
    ensures AllGoodEntries(fields, keys) ==> !CrashingEntries(fields, keys)
  {
    if keys != [] {
      hide CrashingEntries, AllGoodEntries, EntryFault, GoodEntry, TokenId, Overflowing;
      var before, last := keys[..|keys| - 1], keys[|keys| - 1];
      assert keys == before + [last];
      EntriesCrash(fields, before);
      EntryCrashes(fields, last);
      OneMoreEntry(fields, before, last);
      OverflowingIsNotGood(fields, last);
    }
  }

  lemma OverflowingIsNotGood(fields: Fields, key: string)
    ensures GoodEntry(fields, key) ==> !Overflowing(Get(fields, key))
  {
  }

  // ---- The whole request ----

  ghost predicate CrashingBias(b: Fields, order: Listing) {
    var j := Get(b, "logit_bias");
    j.Obj? && CrashingEntries(j.fields, order(j.fields))
  }

  /**
   * `prepare` crashes exactly if the model name is right and either the first message that is
   * not good has a role that cannot be hashed or arguments nested too deep, or everything up
   * to the numbers is good and the first number that is not, or the first entry of `logit_bias`
   * that is not when all fields before it are good, is an integer too large for a float.
   */
  lemma PrepareCrashes(body: Json, rules: Rules, decode: Decoder, order: Listing)
    ensures FirstFault(body, rules, decode, order) == Some(Crash) <==>
      && body.Obj?
      && var b := body.fields;
        && ModelFault(b, rules).None?
        && (|| CrashingMessages(Get(b, "messages"), decode)
            || (&& MessagesFault(Get(b, "messages"), decode).None?
                && ToolsFault(Get(b, "tools")).None? && FlagsFault(b).None?
                && (|| CrashingNumbers(b, NUMBER_FIELDS)
                    || (&& NumbersFault(b, NUMBER_FIELDS).None? && TopKFault(b).None? && SeedFault(b).None?
                        && StopFault(b).None? && CrashingBias(b, order)))))
  {
    if body.Obj? {
      var b := body.fields;
      var messages, bias := Get(b, "messages"), Get(b, "logit_bias");
      if messages.Arr? {
        MessagesCrash(messages.items, 0, decode);
        assert Arr(messages.items) == messages;
      }
      NumbersCrash(b, NUMBER_FIELDS);
      if bias.Obj? { EntriesCrash(bias.fields, order(bias.fields)); }
      OthersNeverCrash(b, rules);
      hide CrashingMessages, CrashingNumbers, CrashingEntries, FaultFrom, NumbersFault, EntriesFault, NUMBER_FIELDS;
      hide ModelFault, ToolsFault, FlagsFault, TopKFault, SeedFault, StopFault, TokensFault, EffortFault;
    }
  }

  /** The other checks always name what is wrong. */
  lemma OthersNeverCrash(b: Fields, rules: Rules)
    ensures ModelFault(b, rules) != Some(Crash) && ToolsFault(Get(b, "tools")) != Some(Crash)
    ensures FlagsFault(b) != Some(Crash) && TopKFault(b) != Some(Crash) && SeedFault(b) != Some(Crash)
    ensures StopFault(b) != Some(Crash) && TokensFault(b) != Some(Crash) && EffortFault(b, rules) != Some(Crash)
  {
  }

  // ---- Requests that do ----

  function Asking(message: Fields): Json {
    Obj(map["messages" := Arr([Obj(message)])])
  }

  /** `{"messages": [{"role": []}]}`. */
  lemma RoleCanCrash(rules: Rules, decode: Decoder, order: Listing)
    ensures FirstFault(Asking(map["role" := Arr([])]), rules, decode, order) == Some(Crash)
  {
    var message := Obj(map["role" := Arr([])]);
    assert CrashingMessage([message][0], decode);
    PrepareCrashes(Asking(map["role" := Arr([])]), rules, decode, order);
  }

  /** A good message with arguments that are nested too deep. */
  lemma ArgumentsCanCrash(rules: Rules, decode: Decoder, order: Listing, arguments: string)
    requires arguments != "" && decode(arguments).TooDeep?
    ensures var call := Obj(map["function" := Obj(map["name" := Str("f"), "arguments" := Str(arguments)])]);
      FirstFault(Asking(map["role" := Str("assistant"), "tool_calls" := Arr([call])]), rules, decode, order) == Some(Crash)
  {
    var call := Obj(map["function" := Obj(map["name" := Str("f"), "arguments" := Str(arguments)])]);
    var message := Obj(map["role" := Str("assistant"), "tool_calls" := Arr([call])]);
    assert TooDeepArguments([call][0], decode);
    assert DeepCalls(Arr([call]), decode);
    assert KnownRole(message) && CrashingMessage([message][0], decode);
    assert CrashingMessages(Arr([message]), decode);
    PrepareCrashes(Asking(message.fields), rules, decode, order);
  }

  /** A good message and a temperature of 2^1024. */
  lemma NumberCanCrash(rules: Rules, decode: Decoder, order: Listing)
    ensures var body := Obj(map[
        "messages" := Arr([Obj(map["role" := Str("user")])]),
        "temperature" := Int(TWO_256 * TWO_256 * TWO_256 * TWO_256)]);
      FirstFault(body, rules, decode, order) == Some(Crash)
  {
    var n := TWO_256 * TWO_256 * TWO_256 * TWO_256;
    var message := Obj(map["role" := Str("user")]);
    var b := map["messages" := Arr([message]), "temperature" := Int(n)];
    assert Overflows(n);
    MessageCrashes(message, 0, decode);
    assert GoodMessage(message, decode);
    assert FaultFrom([message], 0, decode) == FaultFrom([message], 1, decode) == None;
    assert NUMBER_FIELDS[0].name == "temperature" && Overflowing(Get(b, NUMBER_FIELDS[0].name));
    assert CrashingNumbers(b, NUMBER_FIELDS);
    hide Overflows, CrashingNumbers, NUMBER_FIELDS;
    PrepareCrashes(Obj(b), rules, decode, order);
  }

  /** Whether a request is accepted does not depend on the order in which its keys are met. */
  lemma AcceptanceIgnoresOrder(body: Json, rules: Rules, decode: Decoder, order: Listing, other: Listing)
    requires Lists(order) && Lists(other)
    ensures FirstFault(body, rules, decode, order).None? <==> FirstFault(body, rules, decode, other).None?
  {
    if body.Obj? {
      var bias := Get(body.fields, "logit_bias");
      if bias.Obj? {
        SameEntries(bias.fields, order(bias.fields), other(bias.fields));
      }
      hide EntriesFault, NumbersFault, MessagesFault, ToolsFault, FlagsFault, TokensFault, EffortFault, NUMBER_FIELDS;
    }
  }

  lemma SameEntries(fields: Fields, keys: seq<string>, others: seq<string>)
    requires Order.Elements(keys) == Order.Elements(others)
    ensures EntriesFault(fields, keys).None? <==> EntriesFault(fields, others).None?
  {
    hide GoodEntry, EntriesFault;
    EntriesCrash(fields, keys);
    EntriesCrash(fields, others);
    assert forall k | k in keys :: k in Order.Elements(keys);
    assert forall k | k in others :: k in Order.Elements(others);
    assert AllGoodEntries(fields, keys) <==> forall k | k in keys :: GoodEntry(fields, k);
    assert AllGoodEntries(fields, others) <==> forall k | k in others :: GoodEntry(fields, k);
  }
}
