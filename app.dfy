/**
 * The terminal application: the platform selection, the Generate action,
 * the sequential per-platform generation run over a results dictionary
 * updated in place, the copy action and the preview grid.
 */
module App {
  import opened Wrappers
  import opened Text
  import opened Prompts
  import opened Configuration
  import opened Llm

  const Generating: string := "Generating..."
  const LlmUnavailable: string := "LLM not available. Install postman dependencies and set OPENROUTER_API_KEY."
  const DefaultPlatform: string := "linkedin"

  function ConfigurationErrorText(e: string): string {
    "Configuration error: " + e + ". Set OPENROUTER_API_KEY in .env to generate."
  }

  predicate Distinct(s: seq<string>) {
    forall i, j :: 0 <= i < j < |s| ==> s[i] != s[j]
  }

  // ----- Platform selection -----

  /** The four platform checkboxes of the form. */
  datatype Checkboxes = Checkboxes(linkedin: bool, facebook: bool, twitter: bool, instagram: bool)

  predicate Checked(checks: Checkboxes, name: string) {
    || (name == "linkedin" && checks.linkedin)
    || (name == "facebook" && checks.facebook)
    || (name == "twitter" && checks.twitter)
    || (name == "instagram" && checks.instagram)
  }

  predicate NoneChecked(checks: Checkboxes) {
    !checks.linkedin && !checks.facebook && !checks.twitter && !checks.instagram
  }

  /** Position of a platform name in the form's fixed order. */
  function Rank(name: string): nat {
    if name == "linkedin" then 0
    else if name == "facebook" then 1
    else if name == "twitter" then 2
    else 3
  }

  /**
   * `s` is what the form yields for `checks`: never empty, in the fixed
   * order without repeats, holding exactly the checked platforms, or
   * LinkedIn alone when none is checked.
   */
  ghost predicate SelectionOf(checks: Checkboxes, s: seq<string>) {
    && |s| >= 1
    && (forall i, j :: 0 <= i < j < |s| ==> Rank(s[i]) < Rank(s[j]))
    && (forall name :: name in s <==> (Checked(checks, name) || (NoneChecked(checks) && name == DefaultPlatform)))
  }

  lemma SelectionIsDistinct(checks: Checkboxes, s: seq<string>)
    requires SelectionOf(checks, s)
    ensures Distinct(s)
  {
  }

  /** `s` holds the checked platforms among the first `k` of the form, in order. */
  ghost predicate SelectedUpTo(checks: Checkboxes, s: seq<string>, k: nat) {
    && (forall i, j :: 0 <= i < j < |s| ==> Rank(s[i]) < Rank(s[j]))
    && (forall i :: 0 <= i < |s| ==> Rank(s[i]) < k)
    && (forall name :: name in s <==> Checked(checks, name) && Rank(name) < k)
  }

  /** Looking at checkbox `k`, which names `name`, extends the selection by that platform when it is checked. */
  lemma SelectStep(checks: Checkboxes, s: seq<string>, k: nat, name: string, on: bool)
    requires SelectedUpTo(checks, s, k)
    requires Rank(name) == k && (on <==> Checked(checks, name))
    requires forall n :: Checked(checks, n) && Rank(n) == k ==> n == name
    ensures SelectedUpTo(checks, if on then s + [name] else s, k + 1)
  {
    if on {
      var t := s + [name];
      assert forall n :: n in t <==> n in s || n == name;
    }
  }

  /** After the four checkboxes, the selection, or LinkedIn when it is empty, is what the form yields. */
  lemma SelectDone(checks: Checkboxes, s: seq<string>)
    requires SelectedUpTo(checks, s, 4)
    ensures s != [] ==> SelectionOf(checks, s)
    ensures s == [] ==> SelectionOf(checks, [DefaultPlatform])
  {
    if s == [] {
      assert !Checked(checks, "linkedin") && !Checked(checks, "facebook");
      assert !Checked(checks, "twitter") && !Checked(checks, "instagram");
    } else {
      assert s[0] in s;
    }
  }

  /** Every name a selection holds is a platform's value. */
  lemma SelectionNamesPlatforms(checks: Checkboxes, s: seq<string>)
    requires SelectionOf(checks, s)
    ensures NamesPlatforms(s)
  {
    forall i | 0 <= i < |s|
      ensures FromValue(s[i]).Success?
    {
      assert s[i] in s;
    }
  }

  // ----- The form snapshot -----

  datatype EventFields = EventFields(title: string, date: string, time: string, location: string, description: string)

  /** `form_state` once saved: the fields and the selected platforms. */
  datatype FormState = FormState(fields: EventFields, platforms: seq<string>)

  /** `fs.get(key, "")` for each field: empty strings before any save. */
  function FieldsOf(form: Option<FormState>): EventFields {
    if form.Some? then form.value.fields else EventFields("", "", "", "", "")
  }

  // ----- One platform's outcome -----

  /** How one platform's generation ended. */
  datatype PlatformResult = Generated(text: string) | GenerationFailed(message: string) | Errored(message: string)

  /** The text stored in `platform_outputs` for an outcome. */
  function Render(r: PlatformResult): string {
    match r
    case Generated(t) => t
    case GenerationFailed(m) => "Generation failed: " + m
    case Errored(m) => "Error: " + m
  }

  /** The request `generate` sends for a platform. */
  function PlatformRequest(fields: EventFields, p: Platform): seq<Message> {
    GenerateRequest(GetPrompt(p),
      BuildEventContext(fields.title, fields.date, fields.time, fields.location, fields.description, p),
      DefaultMaxSentences)
  }

  /**
   * One iteration of the generation loop: `Platform(name)` (whose
   * `ValueError` is a generic error), the prompt pair, one `generate` call,
   * and the classification of what it raised.
   */
  function Attempt(client: Client, service: Service, fields: EventFields, name: string): PlatformResult {
    match FromValue(name)
    case Failure(e) => Errored(e)
    case Success(p) =>
      match Generate(client, service, GetPrompt(p),
                     BuildEventContext(fields.title, fields.date, fields.time, fields.location, fields.description, p),
                     DefaultMaxSentences)
      case Success(t) => Generated(t)
      case Failure(LLMError(m)) => GenerationFailed(m)
      case Failure(OtherError(m)) => Errored(m)
  }

  /** "Generation failed" is reported only for an `LLMError` raised by the service for that platform's request. */
  lemma GenerationFailedOnlyFromLLMError(client: Client, service: Service, fields: EventFields, name: string)
    ensures Attempt(client, service, fields, name).GenerationFailed? <==>
      (FromValue(name).Success? &&
       service(client, PlatformRequest(fields, FromValue(name).value)).Failure? &&
       service(client, PlatformRequest(fields, FromValue(name).value)).error.LLMError?)
  {
  }

  /**
   * A service that never raises `LLMError` (as the chat model's `ainvoke`
   * does not) never produces "Generation failed": its failures are reported
   * as "Error: ...".
   */
  lemma PlainServiceFailuresAreErrors(client: Client, service: Service, fields: EventFields, name: string)
    requires forall msgs :: service(client, msgs).Failure? ==> service(client, msgs).error.OtherError?
    ensures !Attempt(client, service, fields, name).GenerationFailed?
    ensures FromValue(name).Success? && service(client, PlatformRequest(fields, FromValue(name).value)).Failure? ==>
      Render(Attempt(client, service, fields, name))
        == "Error: " + service(client, PlatformRequest(fields, FromValue(name).value)).error.message
  {
  }

  /** Which branch of `_run_generation` a run takes. */
  datatype Mode = Unavailable | ConfigError(message: string) | Ready(client: Client)

  /**
   * The branch taken: no LLM module, a client that cannot be built, or a
   * client, either the one kept from an earlier run or a new one.
   */
  function ModeOf(haveLlm: bool, client: Option<Client>, validated: bool, env: Env): Mode {
    if !haveLlm then Unavailable
    else if client.Some? then Ready(client.value)
    else match ClientOutcome(validated, env, None)
      case Success(c) => Ready(c)
      case Failure(e) => ConfigError(e)
  }

  /** A run reports a configuration error exactly when it has to build a client and the API key is not available. */
  lemma ModeOfSpec(haveLlm: bool, client: Option<Client>, validated: bool, env: Env)
    ensures ModeOf(haveLlm, client, validated, env).ConfigError? <==>
      haveLlm && client.None? && ApiKeyOutcome(validated, env).Failure?
    ensures haveLlm && client.Some? ==> ModeOf(haveLlm, client, validated, env) == Ready(client.value)
    ensures haveLlm && client.None? && !validated && !IsSet(env, ApiKeyVar) ==>
      ModeOf(haveLlm, client, validated, env) == ConfigError(MissingMessage(ApiKeyVar))
  {
    ClientOutcomeSpec(validated, env, None);
    ApiKeyOutcomeSpec(validated, env);
  }

  /** The text a run stores for a platform. */
  function Produce(mode: Mode, fields: EventFields, service: Service, name: string): string {
    match mode
    case Unavailable => LlmUnavailable
    case ConfigError(e) => ConfigurationErrorText(e)
    case Ready(c) => Render(Attempt(c, service, fields, name))
  }

  // ----- What a run does, platform by platform -----

  /** What the outside world sees: a request sent to the service, or a card refreshed with a content. */
  datatype Event = Sent(request: seq<Message>) | Shown(platform: string, content: string)

  /** The events of one platform: its request, if one is sent, then its card refresh. */
  function EventsFor(mode: Mode, fields: EventFields, service: Service, name: string): seq<Event> {
    (if mode.Ready? && FromValue(name).Success? then [Sent(PlatformRequest(fields, FromValue(name).value))] else [])
      + [Shown(name, Produce(mode, fields, service, name))]
  }

  /** The events of a run over `names`, platform after platform. */
  function RunEvents(mode: Mode, fields: EventFields, service: Service, names: seq<string>): seq<Event> {
    Blocks(EventBlock(mode, fields, service), names)
  }

  function EventBlock(mode: Mode, fields: EventFields, service: Service): string -> seq<Event> {
    name => EventsFor(mode, fields, service, name)
  }

  /** The blocks of `names`, one after another. */
  function Blocks<T>(block: string -> seq<T>, names: seq<string>): seq<T> {
    if names == [] then [] else Blocks(block, names[..|names| - 1]) + block(names[|names| - 1])
  }

  /** The dictionary after each name in turn is assigned its text. */
  function WriteAll(m: map<string, string>, mode: Mode, fields: EventFields, service: Service,
                    names: seq<string>): map<string, string>
  {
    if names == [] then m
    else
      var last := names[|names| - 1];
      WriteAll(m, mode, fields, service, names[..|names| - 1])[last := Produce(mode, fields, service, last)]
  }

  /**
   * The key order of a dictionary `m` with key order `order` after each name
   * in turn is assigned: a name goes last unless it is already a key.
   */
  function OrderAfter(m: map<string, string>, order: seq<string>, names: seq<string>): seq<string> {
    if names == [] then order
    else
      var init := names[..|names| - 1];
      var o := OrderAfter(m, order, init);
      var last := names[|names| - 1];
      if last in m || last in init then o else o + [last]
  }

  /** The platforms whose cards were refreshed, in order. */
  function ShownPlatforms(events: seq<Event>): seq<string> {
    if events == [] then []
    else
      var e := events[|events| - 1];
      ShownPlatforms(events[..|events| - 1]) + (if e.Shown? then [e.platform] else [])
  }

  /** The requests sent to the service, in order. */
  function SentRequests(events: seq<Event>): seq<seq<Message>> {
    if events == [] then []
    else
      var e := events[|events| - 1];
      SentRequests(events[..|events| - 1]) + (if e.Sent? then [e.request] else [])
  }

  // ----- Sequence facts, kept generic so that their proofs see nothing of the run -----

  lemma PrefixOfSnoc<T>(s: seq<T>, x: T)
    ensures (s + [x])[..|s|] == s && (s + [x])[|s|] == x
  {
  }

  lemma Snoc<T>(s: seq<T>)
    requires |s| > 0
    ensures s == s[..|s| - 1] + [s[|s| - 1]]
  {
  }

  lemma MembersOfSnoc<T>(s: seq<T>)
    requires |s| > 0
    ensures forall k :: k in s <==> k in s[..|s| - 1] || k == s[|s| - 1]
  {
    Snoc(s);
  }

  lemma TakeSnoc<T>(s: seq<T>, i: int)
    requires 0 <= i < |s|
    ensures s[..i + 1][..i] == s[..i] && s[..i + 1][i] == s[i]
  {
  }

  lemma AppendAssoc<T>(a: seq<T>, b: seq<T>, c: seq<T>)
    ensures a + (b + c) == (a + b) + c
  {
  }

  lemma WholeSlice<T>(s: seq<T>)
    ensures s[..|s|] == s
  {
  }

  lemma AppendNothing<T>(a: seq<T>)
    ensures a + [] == a
  {
  }

  lemma InitOfAppend<T>(a: seq<T>, b: seq<T>)
    requires |b| > 0
    ensures (a + b)[..|a + b| - 1] == a + b[..|b| - 1]
  {
  }

  /** Blocks of two elements each give twice as many elements. */
  lemma {:induction false} PairBlocksLength<T>(block: string -> seq<T>, names: seq<string>)
    requires forall k :: 0 <= k < |names| ==> |block(names[k])| == 2
    ensures |Blocks(block, names)| == 2 * |names|
  {
    if names != [] {
      PairBlocksLength(block, names[..|names| - 1]);
    }
  }

  /** With blocks of two elements each, block `i` sits at positions `2 * i` and `2 * i + 1`. */
  lemma {:induction false} PairBlocksAt<T>(block: string -> seq<T>, names: seq<string>, i: int)
    requires forall k :: 0 <= k < |names| ==> |block(names[k])| == 2
    requires 0 <= i < |names|
    ensures |Blocks(block, names)| == 2 * |names|
    ensures Blocks(block, names)[2 * i] == block(names[i])[0]
    ensures Blocks(block, names)[2 * i + 1] == block(names[i])[1]
  {
    var init := names[..|names| - 1];
    PairBlocksLength(block, names);
    PairBlocksLength(block, init);
    if i < |init| {
      PairBlocksAt(block, init, i);
      assert init[i] == names[i];
    }
  }

  lemma TakeOfSnoc<T>(a: seq<T>, x: T, n: int)
    requires 0 <= n <= |a|
    ensures (a + [x])[..n] == a[..n]
  {
  }

  lemma {:induction false} ShownPlatformsAppend(a: seq<Event>, b: seq<Event>)
    ensures ShownPlatforms(a + b) == ShownPlatforms(a) + ShownPlatforms(b)
    decreases |b|
  {
    if b == [] {
      AppendNothing(a);
    } else {
      ShownPlatformsAppend(a, b[..|b| - 1]);
      InitOfAppend(a, b);
    }
  }

  lemma {:induction false} SentRequestsAppend(a: seq<Event>, b: seq<Event>)
    ensures SentRequests(a + b) == SentRequests(a) + SentRequests(b)
    decreases |b|
  {
    if b == [] {
      AppendNothing(a);
    } else {
      SentRequestsAppend(a, b[..|b| - 1]);
      InitOfAppend(a, b);
    }
  }

  /** Extending a run by one platform: its entry, its place in the key order and its events come last. */
  lemma RunStep(m: map<string, string>, order: seq<string>, mode: Mode, fields: EventFields, service: Service,
                names: seq<string>, i: int)
    requires 0 <= i < |names|
    ensures WriteAll(m, mode, fields, service, names[..i + 1])
            == WriteAll(m, mode, fields, service, names[..i])[names[i] := Produce(mode, fields, service, names[i])]
    ensures OrderAfter(m, order, names[..i + 1])
            == if names[i] in WriteAll(m, mode, fields, service, names[..i]) then OrderAfter(m, order, names[..i])
               else OrderAfter(m, order, names[..i]) + [names[i]]
    ensures RunEvents(mode, fields, service, names[..i + 1])
            == RunEvents(mode, fields, service, names[..i]) + EventsFor(mode, fields, service, names[i])
  {
    TakeSnoc(names, i);
    WriteAllSpec(m, mode, fields, service, names[..i]);
  }

  /** Without a client, extending a run by one platform shows its message and nothing else. */
  lemma ShowStep(m: map<string, string>, order: seq<string>, events: seq<Event>, mode: Mode, fields: EventFields,
                 service: Service, names: seq<string>, i: int, text: string)
    requires 0 <= i < |names| && !mode.Ready? && Produce(mode, fields, service, names[i]) == text
    ensures WriteAll(m, mode, fields, service, names[..i + 1])
            == WriteAll(m, mode, fields, service, names[..i])[names[i] := text]
    ensures OrderAfter(m, order, names[..i + 1])
            == if names[i] in WriteAll(m, mode, fields, service, names[..i]) then OrderAfter(m, order, names[..i])
               else OrderAfter(m, order, names[..i]) + [names[i]]
    ensures events + RunEvents(mode, fields, service, names[..i + 1])
            == (events + RunEvents(mode, fields, service, names[..i])) + [Shown(names[i], text)]
  {
    RunStep(m, order, mode, fields, service, names, i);
    EventsWithoutClient(mode, fields, service, names[i]);
    AppendAssoc(events, RunEvents(mode, fields, service, names[..i]), EventsFor(mode, fields, service, names[i]));
  }

  /**
   * Every platform of a run has exactly one entry afterwards, holding its
   * own outcome whatever happened to the others; keys outside the run keep
   * their values.
   */
  lemma {:induction false} WriteAllSpec(m: map<string, string>, mode: Mode, fields: EventFields,
                                        service: Service, names: seq<string>)
    ensures forall k :: k in WriteAll(m, mode, fields, service, names) <==> k in m || k in names
    ensures forall k :: k in names ==> WriteAll(m, mode, fields, service, names)[k] == Produce(mode, fields, service, k)
    ensures forall k :: k in m && k !in names ==> WriteAll(m, mode, fields, service, names)[k] == m[k]
  {
    if names != [] {
      var init := names[..|names| - 1];
      WriteAllSpec(m, mode, fields, service, init);
      MembersOfSnoc(names);
    }
  }

  /** A run over a dictionary of placeholders for exactly its platforms leaves exactly their outcomes. */
  lemma FreshRunOutputs(before: map<string, string>, mode: Mode, fields: EventFields, service: Service,
                        names: seq<string>)
    requires forall k :: k in before <==> k in names
    ensures forall k :: k in WriteAll(before, mode, fields, service, names) <==> k in names
    ensures forall k :: k in names ==> WriteAll(before, mode, fields, service, names)[k] == Produce(mode, fields, service, k)
  {
    WriteAllSpec(before, mode, fields, service, names);
  }

  /**
   * For a dictionary whose key order lists its keys once each, keys already
   * present keep their place, new keys come after them, and the order still
   * lists the keys once each.
   */
  lemma {:induction false} OrderAfterSpec(m: map<string, string>, order: seq<string>, names: seq<string>)
    requires Distinct(order) && forall k :: k in m <==> k in order
    ensures Distinct(OrderAfter(m, order, names))
    ensures forall k :: k in OrderAfter(m, order, names) <==> k in order || k in names
    ensures |OrderAfter(m, order, names)| >= |order| && OrderAfter(m, order, names)[..|order|] == order
    ensures (forall k :: k in names ==> k in m) ==> OrderAfter(m, order, names) == order
  {
    if names != [] {
      var init := names[..|names| - 1];
      var last := names[|names| - 1];
      OrderAfterSpec(m, order, init);
      MembersOfSnoc(names);
      var o := OrderAfter(m, order, init);
      if !(last in m || last in init) {
        assert last !in o;
        TakeOfSnoc(o, last, |order|);
      }
    }
  }

  /** A run keeps the dictionary's key order an exact, repeat-free list of its keys. */
  lemma RunKeepsKeyOrder(m: map<string, string>, order: seq<string>, mode: Mode, fields: EventFields,
                         service: Service, names: seq<string>)
    requires Distinct(order) && forall k :: k in m <==> k in order
    ensures Distinct(OrderAfter(m, order, names))
    ensures forall k :: k in WriteAll(m, mode, fields, service, names) <==> k in OrderAfter(m, order, names)
  {
    OrderAfterSpec(m, order, names);
    WriteAllSpec(m, mode, fields, service, names);
  }

  /** Without a client, a platform's only event is its card refresh. */
  lemma EventsWithoutClient(mode: Mode, fields: EventFields, service: Service, name: string)
    requires !mode.Ready?
    ensures EventsFor(mode, fields, service, name) == [Shown(name, Produce(mode, fields, service, name))]
  {
    AppendNothing<Event>([]);
  }

  /** With a client, a valid platform sends its request and then refreshes its card. */
  lemma EventsWithClient(c: Client, fields: EventFields, service: Service, name: string)
    requires FromValue(name).Success?
    ensures EventsFor(Ready(c), fields, service, name)
         == [Sent(PlatformRequest(fields, FromValue(name).value)), Shown(name, Produce(Ready(c), fields, service, name))]
  {
  }

  /** One platform's events refresh its card, once. */
  lemma ShownPlatformsOfOne(mode: Mode, fields: EventFields, service: Service, name: string)
    ensures ShownPlatforms(EventsFor(mode, fields, service, name)) == [name]
  {
    var pre: seq<Event> := if mode.Ready? && FromValue(name).Success? then [Sent(PlatformRequest(fields, FromValue(name).value))] else [];
    var shown := [Shown(name, Produce(mode, fields, service, name))];
    ShownPlatformsAppend(pre, shown);
    assert shown[..0] == [];
    assert ShownPlatforms(shown) == [name];
    if pre != [] {
      assert pre[..0] == [];
    }
  }

  /** One card refresh per platform of the run, in the run's order. */
  lemma {:induction false} RunShowsEachPlatformInOrder(mode: Mode, fields: EventFields, service: Service,
                                                      names: seq<string>)
    ensures ShownPlatforms(RunEvents(mode, fields, service, names)) == names
  {
    if names != [] {
      var init := names[..|names| - 1];
      var last := names[|names| - 1];
      RunShowsEachPlatformInOrder(mode, fields, service, init);
      ShownPlatformsAppend(RunEvents(mode, fields, service, init), EventsFor(mode, fields, service, last));
      ShownPlatformsOfOne(mode, fields, service, last);
      Snoc(names);
    }
  }

  /**
   * What a run promises whatever the dictionary held: each platform ends with
   * its own outcome and its card is refreshed once, in order; started from
   * placeholders for exactly its own repeat-free platforms, it leaves exactly
   * those keys in that order.
   */
  lemma RunSummary(before: map<string, string>, order0: seq<string>, platforms: seq<string>, mode: Mode,
                   fields: EventFields, service: Service, events0: seq<Event>)
    ensures forall k :: k in platforms ==>
      k in WriteAll(before, mode, fields, service, platforms)
      && WriteAll(before, mode, fields, service, platforms)[k] == Produce(mode, fields, service, k)
    ensures ShownPlatforms(events0 + RunEvents(mode, fields, service, platforms)) == ShownPlatforms(events0) + platforms
    ensures Distinct(platforms) && order0 == platforms && (forall k :: k in before <==> k in platforms) ==>
      && OrderAfter(before, order0, platforms) == platforms
      && forall k :: k in WriteAll(before, mode, fields, service, platforms) <==> k in platforms
  {
    WriteAllSpec(before, mode, fields, service, platforms);
    RunShowsEachPlatformInOrder(mode, fields, service, platforms);
    ShownPlatformsAppend(events0, RunEvents(mode, fields, service, platforms));
    if Distinct(platforms) && order0 == platforms && (forall k :: k in before <==> k in platforms) {
      OrderAfterSpec(before, order0, platforms);
    }
  }

  /** Without a client, no request reaches the service. */
  lemma {:induction false} NoRequestWithoutClient(mode: Mode, fields: EventFields, service: Service,
                                                 names: seq<string>)
    requires !mode.Ready?
    ensures SentRequests(RunEvents(mode, fields, service, names)) == []
  {
    if names != [] {
      var init := names[..|names| - 1];
      var last := names[|names| - 1];
      NoRequestWithoutClient(mode, fields, service, init);
      SentRequestsAppend(RunEvents(mode, fields, service, init), EventsFor(mode, fields, service, last));
      EventsWithoutClient(mode, fields, service, last);
      var shown := [Shown(last, Produce(mode, fields, service, last))];
      assert shown[..0] == [];
    }
  }

  /** The platforms of a list that name a real platform. */
  predicate NamesPlatforms(names: seq<string>) {
    forall i :: 0 <= i < |names| ==> FromValue(names[i]).Success?
  }

  /**
   * With a client and valid platform names, the run is strictly sequential:
   * for each platform in turn, its one request is sent and then its card
   * is refreshed with its outcome, before the next platform starts.
   */
  lemma ReadyRunAlternates(c: Client, fields: EventFields, service: Service, names: seq<string>)
    requires NamesPlatforms(names)
    ensures var ev := RunEvents(Ready(c), fields, service, names);
      && |ev| == 2 * |names|
      && forall i :: 0 <= i < |names| ==>
           && ev[2 * i] == Sent(PlatformRequest(fields, FromValue(names[i]).value))
           && ev[2 * i + 1] == Shown(names[i], Produce(Ready(c), fields, service, names[i]))
  {
    var block := EventBlock(Ready(c), fields, service);
    forall k | 0 <= k < |names|
      ensures |block(names[k])| == 2
    {
      EventsWithClient(c, fields, service, names[k]);
    }
    PairBlocksLength(block, names);
    forall i | 0 <= i < |names|
      ensures RunEvents(Ready(c), fields, service, names)[2 * i] == Sent(PlatformRequest(fields, FromValue(names[i]).value))
      ensures RunEvents(Ready(c), fields, service, names)[2 * i + 1] == Shown(names[i], Produce(Ready(c), fields, service, names[i]))
    {
      PairBlocksAt(block, names, i);
      EventsWithClient(c, fields, service, names[i]);
    }
  }

  // ----- The application object -----

  /** The result of `action_copy`: the text put on the clipboard, or the warning shown instead. */
  datatype CopyDecision = CopyToClipboard(content: string, display: string) | NothingToCopy(warning: string)

  class Postman {
    /** `_HAVE_LLM`: whether the LLM modules could be imported. */
    const haveLlm: bool
    var llmClient: Option<Client>
    /** `platform_outputs`, with `order` its keys in insertion order. */
    var outputs: map<string, string>
    var order: seq<string>
    var formState: Option<FormState>
    /** Requests sent and cards refreshed so far. */
    ghost var Events: seq<Event>

    ghost predicate Valid()
      reads this
    {
      && Distinct(order)
      && (forall k :: k in outputs <==> k in order)
      && (formState.Some? ==> |formState.value.platforms| >= 1 && Distinct(formState.value.platforms))
    }

    constructor (haveLlm: bool)
      ensures Valid() && this.haveLlm == haveLlm
      ensures llmClient.None? && outputs == map[] && order == [] && formState.None? && Events == []
    {
      this.haveLlm := haveLlm;
      llmClient := None;
      outputs := map[];
      order := [];
      formState := None;
      Events := [];
    }

    /** `_get_selected_platforms`: the checked platforms in the form's order, LinkedIn when none is. */
    static method GetSelectedPlatforms(checks: Checkboxes) returns (selected: seq<string>)
      ensures SelectionOf(checks, selected)
      ensures NamesPlatforms(selected)
    {
      selected := [];
      SelectStep(checks, selected, 0, "linkedin", checks.linkedin);
      if checks.linkedin {
        selected := selected + ["linkedin"];
      }
      SelectStep(checks, selected, 1, "facebook", checks.facebook);
      if checks.facebook {
        selected := selected + ["facebook"];
      }
      SelectStep(checks, selected, 2, "twitter", checks.twitter);
      if checks.twitter {
        selected := selected + ["twitter"];
      }
      SelectStep(checks, selected, 3, "instagram", checks.instagram);
      if checks.instagram {
        selected := selected + ["instagram"];
      }
      SelectDone(checks, selected);
      if selected == [] {
        selected := [DefaultPlatform];
      }
      SelectionNamesPlatforms(checks, selected);
    }

    /**
     * `action_generate` up to starting the worker: save the form (`read` is
     * None when reading a widget fails, which leaves the saved state as it
     * was), take its platforms, and reset `platform_outputs` to a
     * placeholder per platform. Returns the platforms handed to the worker.
     */
    method ActionGenerate(read: Option<EventFields>, checks: Checkboxes) returns (platforms: seq<string>)
      requires Valid()
      modifies this`outputs, this`order, this`formState
      ensures Valid()
      ensures read.Some? ==> formState.Some? && formState.value.fields == read.value
                             && SelectionOf(checks, formState.value.platforms)
      ensures read.None? ==> formState == old(formState)
      ensures platforms == (if formState.Some? then formState.value.platforms else [DefaultPlatform])
      ensures |platforms| >= 1 && Distinct(platforms)
      ensures outputs == (map p | p in platforms :: Generating) && order == platforms
    {
      if read.Some? {
        var selected := GetSelectedPlatforms(checks);
        SelectionIsDistinct(checks, selected);
        formState := Some(FormState(read.value, selected));
      }
      platforms := if formState.Some? then formState.value.platforms else [DefaultPlatform];
      outputs := map p | p in platforms :: Generating;
      order := platforms;
    }

    /** `platform_outputs[name] = text`: a new key goes last in the key order. */
    method Store(name: string, text: string)
      modifies this`outputs, this`order
      ensures outputs == old(outputs)[name := text]
      ensures order == (if name in old(outputs) then old(order) else old(order) + [name])
    {
      if name !in outputs {
        order := order + [name];
      }
      outputs := outputs[name := text];
    }

    /** `_update_platform_card`: the card shows the stored text, "" if there is none. */
    method UpdatePlatformCard(name: string)
      modifies this`Events
      ensures Events == old(Events) + [Shown(name, if name in outputs then outputs[name] else "")]
    {
      Events := Events + [Shown(name, if name in outputs then outputs[name] else "")];
    }

    /** One iteration of the message loops: store the message and refresh the card. */
    method ShowMessage(name: string, text: string)
      modifies this`outputs, this`order, this`Events
      ensures outputs == old(outputs)[name := text]
      ensures order == (if name in old(outputs) then old(order) else old(order) + [name])
      ensures Events == old(Events) + [Shown(name, text)]
    {
      Store(name, text);
      UpdatePlatformCard(name);
    }

    /**
     * One iteration of the generation loop: parse the platform, send its
     * request, store the classified outcome and refresh the card.
     */
    method GenerateOne(client: Client, service: Service, fs: EventFields, name: string)
      modifies this`outputs, this`order, this`Events
      ensures outputs == old(outputs)[name := Produce(Ready(client), fs, service, name)]
      ensures order == (if name in old(outputs) then old(order) else old(order) + [name])
      ensures Events == old(Events) + EventsFor(Ready(client), fs, service, name)
    {
      var text: string;
      match FromValue(name) {
        case Failure(e) =>
          text := "Error: " + e;
        case Success(p) =>
          var systemPrompt := GetPrompt(p);
          var userInput := BuildEventContext(fs.title, fs.date, fs.time, fs.location, fs.description, p);
          Events := Events + [Sent(GenerateRequest(systemPrompt, userInput, DefaultMaxSentences))];
          var result := Generate(client, service, systemPrompt, userInput, DefaultMaxSentences);
          match result {
            case Success(t) =>
              text := t;
            case Failure(LLMError(m)) =>
              text := "Generation failed: " + m;
            case Failure(OtherError(m)) =>
              text := "Error: " + m;
          }
      }
      assert text == Produce(Ready(client), fs, service, name);
      ShowMessage(name, text);
    }

    /** The loop of the unavailable and configuration-error branches: one fixed message per platform. */
    method ShowAll(platforms: seq<string>, text: string, ghost mode: Mode, ghost fields: EventFields,
                   ghost service: Service)
      requires !mode.Ready? && forall name :: Produce(mode, fields, service, name) == text
      modifies this`outputs, this`order, this`Events
      ensures outputs == WriteAll(old(outputs), mode, fields, service, platforms)
      ensures order == OrderAfter(old(outputs), old(order), platforms)
      ensures Events == old(Events) + RunEvents(mode, fields, service, platforms)
    {
      var i := 0;
      while i < |platforms|
        invariant 0 <= i <= |platforms|
        invariant outputs == WriteAll(old(outputs), mode, fields, service, platforms[..i])
        invariant order == OrderAfter(old(outputs), old(order), platforms[..i])
        invariant Events == old(Events) + RunEvents(mode, fields, service, platforms[..i])
      {
        ShowStep(old(outputs), old(order), old(Events), mode, fields, service, platforms, i, text);
        ShowMessage(platforms[i], text);
        i := i + 1;
      }
      WholeSlice(platforms);
    }

    /** The loop of the generation branch: one `generate` call per platform, in order. */
    method GenerateAll(client: Client, platforms: seq<string>, fs: EventFields, service: Service)
      modifies this`outputs, this`order, this`Events
      ensures outputs == WriteAll(old(outputs), Ready(client), fs, service, platforms)
      ensures order == OrderAfter(old(outputs), old(order), platforms)
      ensures Events == old(Events) + RunEvents(Ready(client), fs, service, platforms)
    {
      var i := 0;
      while i < |platforms|
        invariant 0 <= i <= |platforms|
        invariant outputs == WriteAll(old(outputs), Ready(client), fs, service, platforms[..i])
        invariant order == OrderAfter(old(outputs), old(order), platforms[..i])
        invariant Events == old(Events) + RunEvents(Ready(client), fs, service, platforms[..i])
      {
        RunStep(old(outputs), old(order), Ready(client), fs, service, platforms, i);
        AppendAssoc(old(Events), RunEvents(Ready(client), fs, service, platforms[..i]),
                    EventsFor(Ready(client), fs, service, platforms[i]));
        GenerateOne(client, service, fs, platforms[i]);
        i := i + 1;
      }
      WholeSlice(platforms);
    }

    /**
     * `_run_generation`: without the LLM modules, or when a client cannot be
     * built, every platform gets the same message; otherwise each platform in
     * turn gets its own outcome. Each platform's entry is written once and its
     * card refreshed right after; the client is built only if none is kept.
     */
    method RunGeneration(platforms: seq<string>, cfg: Config, env: Env, service: Service)
      requires Valid()
      modifies this`outputs, this`order, this`Events, this`llmClient, cfg
      ensures Valid()
      ensures var mode := ModeOf(haveLlm, old(llmClient), old(cfg.validated), env);
              var fields := FieldsOf(old(formState));
        && outputs == WriteAll(old(outputs), mode, fields, service, platforms)
        && order == OrderAfter(old(outputs), old(order), platforms)
        && Events == old(Events) + RunEvents(mode, fields, service, platforms)
        && llmClient == (if mode.Ready? then Some(mode.client) else old(llmClient))
        && (forall k :: k in platforms ==> k in outputs && outputs[k] == Produce(mode, fields, service, k))
      ensures cfg.validated == if haveLlm && old(llmClient).None? then old(cfg.validated) || IsSet(env, ApiKeyVar)
                               else old(cfg.validated)
      ensures ShownPlatforms(Events) == ShownPlatforms(old(Events)) + platforms
      ensures Distinct(platforms) && old(order) == platforms && (forall k :: k in old(outputs) <==> k in platforms) ==>
        order == platforms && forall k :: k in outputs <==> k in platforms
    {
      ghost var before, order0, events0 := outputs, order, Events;
      var fs := FieldsOf(formState);
      var mode := PrepareClient(cfg, env);
      RunKeepsKeyOrder(outputs, order, mode, fs, service, platforms);
      RunSummary(outputs, order, platforms, mode, fs, service, Events);
      RunWithMode(mode, platforms, fs, service);
    }

    /** The platform loop of `_run_generation`, once the client has been prepared (or refused). */
    method RunWithMode(mode: Mode, platforms: seq<string>, fs: EventFields, service: Service)
      modifies this`outputs, this`order, this`Events
      ensures outputs == WriteAll(old(outputs), mode, fs, service, platforms)
      ensures order == OrderAfter(old(outputs), old(order), platforms)
      ensures Events == old(Events) + RunEvents(mode, fs, service, platforms)
    {
      match mode {
        case Unavailable =>
          ShowAll(platforms, LlmUnavailable, mode, fs, service);
        case ConfigError(e) =>
          ShowAll(platforms, ConfigurationErrorText(e), mode, fs, service);
        case Ready(client) =>
          GenerateAll(client, platforms, fs, service);
      }
    }

    /**
     * The opening of `_run_generation`: the branch the run takes, building
     * and keeping a client when the LLM modules are there and none is kept.
     */
    method PrepareClient(cfg: Config, env: Env) returns (mode: Mode)
      modifies this`llmClient, cfg
      ensures mode == ModeOf(haveLlm, old(llmClient), old(cfg.validated), env)
      ensures llmClient == (if mode.Ready? then Some(mode.client) else old(llmClient))
      ensures cfg.validated == if haveLlm && old(llmClient).None? then old(cfg.validated) || IsSet(env, ApiKeyVar)
                               else old(cfg.validated)
    {
      if !haveLlm {
        mode := Unavailable;
        return;
      }
      if llmClient.None? {
        var created := NewClient(cfg, env, None);
        if created.Failure? {
          mode := ConfigError(created.error);
          return;
        }
        llmClient := Some(created.value);
      }
      mode := Ready(llmClient.value);
    }

    /**
     * Pressing Generate and letting the worker finish: afterwards the
     * dictionary holds exactly the run's platforms, in that order, each with
     * its final outcome (entries of earlier runs are gone), and each card was
     * refreshed once, in order.
     */
    method GenerateAndRun(read: Option<EventFields>, checks: Checkboxes, cfg: Config, env: Env, service: Service)
      returns (platforms: seq<string>)
      requires Valid()
      modifies this`outputs, this`order, this`formState, this`Events, this`llmClient, cfg
      ensures Valid()
      ensures read.Some? ==> formState.Some? && formState.value.fields == read.value
                             && SelectionOf(checks, formState.value.platforms)
      ensures read.None? ==> formState == old(formState)
      ensures platforms == (if formState.Some? then formState.value.platforms else [DefaultPlatform])
      ensures read.Some? ==> SelectionOf(checks, platforms)
      ensures |platforms| >= 1 && Distinct(platforms)
      ensures order == platforms
      ensures forall k :: k in outputs <==> k in platforms
      ensures var mode := ModeOf(haveLlm, old(llmClient), old(cfg.validated), env);
        && (forall k :: k in platforms ==> outputs[k] == Produce(mode, FieldsOf(formState), service, k))
        && Events == old(Events) + RunEvents(mode, FieldsOf(formState), service, platforms)
        && llmClient == (if mode.Ready? then Some(mode.client) else old(llmClient))
      ensures cfg.validated == if haveLlm && old(llmClient).None? then old(cfg.validated) || IsSet(env, ApiKeyVar)
                               else old(cfg.validated)
      ensures ShownPlatforms(Events) == ShownPlatforms(old(Events)) + platforms
    {
      ghost var client0, validated0 := llmClient, cfg.validated;
      platforms := ActionGenerate(read, checks);
      assert llmClient == client0 && cfg.validated == validated0;
      RunGeneration(platforms, cfg, env, service);
    }

    /**
     * `action_copy(platform)`: the named platform's output (a falsy name
     * means the first output in insertion order); empty content is refused
     * with a warning instead of being copied.
     */
    function CopyChoice(platform: Option<string>): (d: CopyDecision)
      reads this
      requires Valid()
      ensures d.CopyToClipboard? ==> d.content != ""
      ensures platform.Some? && platform.value != "" ==>
        (&& (d.CopyToClipboard? <==> platform.value in outputs && outputs[platform.value] != "")
         && (d.CopyToClipboard? ==> d.content == outputs[platform.value])
         && (d.NothingToCopy? ==> d.warning == "Nothing to copy for " + Title(platform.value)))
      ensures platform.None? || platform.value == "" ==>
        (&& (d.CopyToClipboard? <==> order != [] && outputs[order[0]] != "")
         && (d.CopyToClipboard? ==> d.content == outputs[order[0]])
         && (d.NothingToCopy? ==> d.warning == "Nothing to copy for content"))
    {
      var named := platform.Some? && platform.value != "";
      var content := if named then (if platform.value in outputs then outputs[platform.value] else "")
                     else if order != [] then outputs[order[0]] else "";
      var display := if named then Title(platform.value) else "content";
      if content == "" then NothingToCopy("Nothing to copy for " + display)
      else CopyToClipboard(content, display)
    }
  }

  // ----- The preview screen -----

  function Min(a: int, b: int): int {
    if a < b then a else b
  }

  function Flatten(rows: seq<seq<string>>): seq<string> {
    if rows == [] then [] else Flatten(rows[..|rows| - 1]) + rows[|rows| - 1]
  }

  /**
   * The grid loop of `PreviewScreen.compose`: consecutive pairs of
   * platforms per row, the last row holding one card when their number is
   * odd; read row by row, the grid is the platform list.
   */
  method PreviewRows(platforms: seq<string>) returns (rows: seq<seq<string>>)
    ensures |rows| == (|platforms| + 1) / 2
    ensures forall r :: 0 <= r < |rows| ==> rows[r] == platforms[2 * r .. Min(2 * r + 2, |platforms|)]
    ensures forall r :: 0 <= r < |rows| ==> 1 <= |rows[r]| <= 2
    ensures Flatten(rows) == platforms
  {
    rows := [];
    var i := 0;
    while i < |platforms|
      invariant i == 2 * |rows| && i <= |platforms| + 1
      invariant forall r :: 0 <= r < |rows| ==> rows[r] == platforms[2 * r .. Min(2 * r + 2, |platforms|)]
      invariant Flatten(rows) == platforms[..Min(i, |platforms|)]
    {
      var row := [platforms[i]];
      if i + 1 < |platforms| {
        row := row + [platforms[i + 1]];
      }
      assert row == platforms[i .. Min(i + 2, |platforms|)];
      PrefixOfSnoc(rows, row);
      assert platforms[..Min(i + 2, |platforms|)] == platforms[..i] + row;
      rows := rows + [row];
      i := i + 2;
    }
    assert platforms[..Min(i, |platforms|)] == platforms;
  }

  /** `PreviewScreen.on_mount`: each card shows its platform's stored text, "Generating..." when there is none. */
  function MountedContents(outputs: map<string, string>, platforms: seq<string>): (r: seq<string>)
    ensures |r| == |platforms|
    ensures forall i :: 0 <= i < |platforms| ==>
      r[i] == if platforms[i] in outputs then outputs[platforms[i]] else Generating
  {
    if platforms == [] then []
    else
      var last := platforms[|platforms| - 1];
      MountedContents(outputs, platforms[..|platforms| - 1])
        + [if last in outputs then outputs[last] else Generating]
  }

  /** The preview opened by Generate shows the placeholder on every card until the run refreshes it. */
  lemma PreviewOpensWithPlaceholders(outputs: map<string, string>, platforms: seq<string>)
    requires outputs == map p | p in platforms :: Generating
    ensures MountedContents(outputs, platforms) == seq(|platforms|, _ => Generating)
  {
    var r := MountedContents(outputs, platforms);
    forall i | 0 <= i < |platforms|
      ensures r[i] == Generating
    {
      assert platforms[i] in outputs;
    }
  }

  /** The id of a platform card's Copy button. */
  function CopyButtonId(platform: string): string {
    "copy-" + platform
  }

  /** What a button press on the preview screen asks for. */
  datatype ButtonAction = Dismiss | CopyPlatform(platform: string) | NoAction

  /** `PreviewScreen.on_button_pressed`: the Copy buttons name their platform after "copy-". */
  function OnButtonPressed(id: Option<string>): ButtonAction {
    if id == Some("back") then Dismiss
    else if id.Some? && id.value != "" && StartsWith(id.value, "copy-") then CopyPlatform(Replace(id.value, "copy-", ""))
    else NoAction
  }

  /** A Copy button's id parses back to its platform when the name does not itself hold "copy-". */
  lemma CopyButtonRoundTrip(platform: string)
    requires !Occurs(platform, "copy-")
    ensures OnButtonPressed(Some(CopyButtonId(platform))) == CopyPlatform(platform)
  {
    ReplaceLeading(platform, "copy-", "");
    ReplaceAbsent(platform, "copy-", "");
    assert StartsWith("copy-" + platform, "copy-");
  }

  /** Every platform's Copy button asks to copy that platform. */
  lemma PlatformCopyButtons(p: Platform)
    ensures OnButtonPressed(Some(CopyButtonId(Value(p)))) == CopyPlatform(Value(p))
  {
    if Occurs(Value(p), "copy-") {
      OccursHasChars(Value(p), "copy-", '-');
      assert false;
    }
    CopyButtonRoundTrip(Value(p));
  }
}
