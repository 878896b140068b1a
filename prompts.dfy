/**
 * Platform-specific prompt data: the closed set of platforms, the system
 * prompt for each, the user message that carries an event's details, and the
 * length constraint for each platform. Everything here is pure lookup and
 * string building.
 */
module Prompts {
  import opened Wrappers
  import opened Text

  /** The supported social-media platforms, in declaration order. */
  datatype Platform = LinkedIn | Facebook | Twitter | Instagram

  const AllPlatforms: seq<Platform> := [LinkedIn, Facebook, Twitter, Instagram]

  /** `platform.value` */
  function Value(p: Platform): string {
    match p
    case LinkedIn => "linkedin"
    case Facebook => "facebook"
    case Twitter => "twitter"
    case Instagram => "instagram"
  }

  /**
   * `Platform(s)`: the member whose value is `s`; any other string raises
   * `ValueError`, whose text is returned as the error.
   */
  function FromValue(s: string): Result<Platform, string> {
    if s == "linkedin" then Success(LinkedIn)
    else if s == "facebook" then Success(Facebook)
    else if s == "twitter" then Success(Twitter)
    else if s == "instagram" then Success(Instagram)
    else Failure("'" + s + "' is not a valid Platform")
  }

  /** Exactly the four values are accepted, each for the member it names; anything else gets the `ValueError` text. */
  lemma FromValueSpec(s: string)
    ensures FromValue(s).Success? <==> s in ["linkedin", "facebook", "twitter", "instagram"]
    ensures FromValue(s).Success? ==> Value(FromValue(s).value) == s
    ensures FromValue(s).Failure? ==> FromValue(s).error == "'" + s + "' is not a valid Platform"
  {
  }

  /** Every platform is constructed back from its own value, and no two share a value. */
  lemma ValueRoundTrip(p: Platform, q: Platform)
    ensures FromValue(Value(p)) == Success(p)
    ensures Value(p) == Value(q) ==> p == q
  {
  }

  // The template texts themselves are opaque data; these stand-ins keep the
  // four entries distinct.
  const LinkedInPrompt: string := "<linkedin>"
  const FacebookPrompt: string := "<facebook>"
  const TwitterPrompt: string := "<twitter>"
  const InstagramPrompt: string := "<instagram>"

  /** `PromptManager.PROMPTS` */
  const PromptTable: map<Platform, string> :=
    map[LinkedIn := LinkedInPrompt, Facebook := FacebookPrompt,
        Twitter := TwitterPrompt, Instagram := InstagramPrompt]

  /**
   * `table.get(p, table[Platform.LINKEDIN])`. Python evaluates the default
   * first, so a table without a LinkedIn entry raises `KeyError` (None here)
   * even for a platform it does map.
   */
  function PromptLookup(table: map<Platform, string>, p: Platform): Option<string> {
    if LinkedIn !in table then None
    else Some(if p in table then table[p] else table[LinkedIn])
  }

  /** A lookup in a table that has a LinkedIn entry never fails and falls back to that entry. */
  lemma PromptLookupFallback(table: map<Platform, string>, p: Platform)
    requires LinkedIn in table
    ensures PromptLookup(table, p).Some?
    ensures p !in table ==> PromptLookup(table, p).value == table[LinkedIn]
    ensures p in table ==> PromptLookup(table, p).value == table[p]
  {
  }

  /** `PROMPTS` has an entry for every platform. */
  lemma PromptTableTotal(p: Platform)
    ensures p in PromptTable
  {
    match p
    case LinkedIn =>
    case Facebook =>
    case Twitter =>
    case Instagram =>
  }

  /** `PromptManager.get_prompt(p)`: the table is total, so the fallback is never taken. */
  function GetPrompt(p: Platform): string {
    PromptTableTotal(p);
    PromptLookup(PromptTable, p).value
  }

  /** The lookup finds each platform's own entry, so no platform but LinkedIn gets LinkedIn's prompt. */
  lemma GetPromptSpec(p: Platform)
    ensures p in PromptTable && GetPrompt(p) == PromptTable[p]
    ensures p != LinkedIn ==> GetPrompt(p) != PromptTable[LinkedIn]
  {
    PromptTableTotal(p);
  }

  /** The first line of the event context, spelled in pieces so that its characters can be checked piece by piece. */
  const ContextHeader: string := "Create a " + "social media " + "post for the " + "following event:"

  /** The lines of the event context, in order; the last one is the empty line after the final newline. */
  function ContextLines(title: string, date: string, time: string, location: string,
                        description: string, p: Platform): seq<string>
  {
    [ContextHeader, "", "Title: " + title, "Date: " + date, "Time: " + time,
     "Location: " + location, "Description: " + description, "", "Platform: " + Value(p), ""]
  }

  /**
   * `PromptManager.build_event_context`: the multi-line template, that is a
   * header, a blank line, the five labelled fields verbatim, a blank line and
   * the platform value, each line ended by a newline. It reads nothing but
   * its arguments.
   */
  function BuildEventContext(title: string, date: string, time: string, location: string,
                             description: string, p: Platform): string
  {
    Join("\n", ContextLines(title, date, time, location, description, p))
  }

  /**
   * When no field holds a newline, splitting the context at newlines gives
   * back exactly its ten lines: every field verbatim, in order, then the
   * platform value.
   */
  lemma EventContextRoundTrip(title: string, date: string, time: string, location: string,
                              description: string, p: Platform)
    requires '\n' !in title && '\n' !in date && '\n' !in time
    requires '\n' !in location && '\n' !in description
    ensures Split(BuildEventContext(title, date, time, location, description, p), "\n")
         == ContextLines(title, date, time, location, description, p)
  {
    var lines := ContextLines(title, date, time, location, description, p);
    ContextLinesHaveNoNewline(title, date, time, location, description, p);
    SplitOfJoin(lines, '\n');
  }

  lemma ContextLinesHaveNoNewline(title: string, date: string, time: string, location: string,
                                  description: string, p: Platform)
    requires '\n' !in title && '\n' !in date && '\n' !in time
    requires '\n' !in location && '\n' !in description
    ensures forall i :: 0 <= i < 10 ==> '\n' !in ContextLines(title, date, time, location, description, p)[i]
  {
    HeaderHasNoNewline();
    NoNewlineAfterLabel("Title: ", title);
    NoNewlineAfterLabel("Date: ", date);
    NoNewlineAfterLabel("Time: ", time);
    NoNewlineAfterLabel("Location: ", location);
    NoNewlineAfterLabel("Description: ", description);
    NoNewlineAfterLabel("Platform: ", Value(p));
  }

  lemma HeaderHasNoNewline()
    ensures '\n' !in ContextHeader
  {
  }

  lemma NoNewlineAfterLabel(tag: string, field: string)
    requires tag in ["Title: ", "Date: ", "Time: ", "Location: ", "Description: ", "Platform: "]
    requires '\n' !in field
    ensures '\n' !in tag + field
  {
  }

  const DefaultConstraint: string := "2-3 sentences"

  /** The `constraints` table of `get_content_constraint`. */
  const ConstraintTable: map<Platform, string> :=
    map[LinkedIn := "2-3 sentences", Facebook := "2-3 sentences",
        Twitter := "1-2 sentences, max 280 characters", Instagram := "2-3 sentences with emojis"]

  /** The constraint table has an entry for every platform. */
  lemma ConstraintTableTotal(p: Platform)
    ensures p in ConstraintTable
  {
    match p
    case LinkedIn =>
    case Facebook =>
    case Twitter =>
    case Instagram =>
  }

  /** `PromptManager.get_content_constraint(p)`; the default is unreachable for a real platform. */
  function GetContentConstraint(p: Platform): (r: string)
    ensures p in ConstraintTable && r == ConstraintTable[p]
    ensures (p == LinkedIn || p == Facebook) <==> r == DefaultConstraint
    ensures p == Twitter <==> r == "1-2 sentences, max 280 characters"
    ensures p == Instagram <==> r == "2-3 sentences with emojis"
  {
    ConstraintTableTotal(p);
    if p in ConstraintTable then ConstraintTable[p] else DefaultConstraint
  }
}
