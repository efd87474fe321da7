/** The chat widget: the keyword router over the knowledge table and the
    transcript it appends to when the visitor sends a question. */
module Chatbot {
  import opened Text
  import opened Knowledge

  datatype Option<T> = None | Some(value: T)

  datatype Role = User | Bot

  /** One bubble of the transcript. `source` and `sectionId` are the optional
      fields of the original record; the id is the number whose decimal
      spelling the widget stores. */
  datatype ChatMessage = ChatMessage(
    id: nat,
    role: Role,
    content: string,
    source: Option<string>,
    sectionId: Option<string>)

  /** The bot's opening message, the whole transcript before any question. */
  const Greeting: ChatMessage := ChatMessage(
    1, Bot,
    "Hi! I'm Jithin's AI assistant. Ask me anything about his experience, skills, projects, or education!",
    None, None)

  /** The route the widget chooses for a query: the first section of the
      table that the lower-cased query mentions, else the general answer. */
  function Routed(query: string): Route
  {
    FirstMatch(LowerStr(query), Table)
  }

  /** `findRelevantSection`: lower-case the query, walk the table in order
      and stop at the first section one of whose keywords the query contains. */
  method FindRelevantSection(query: string) returns (r: Route)
    ensures r == Routed(query)
  {
    var lowerQuery := LowerStr(query);
    var i := 0;
    while i < |Table|
      invariant 0 <= i <= |Table|
      invariant FirstMatch(lowerQuery, Table) == FirstMatch(lowerQuery, Table[i..])
    {
      var section := Table[i];
      if Mentions(lowerQuery, section.keywords) {
        return RouteTo(section);
      }
      assert Table[i..][1..] == Table[i + 1..];
      i := i + 1;
    }
    return Fallback;
  }

  /** The route falls back to the general answer exactly when no keyword of
      any section is a substring of the lower-cased query, and then it carries
      the fixed general reply. */
  lemma RoutesToGeneralIff(query: string)
    ensures Routed(query).section == General <==>
            forall i, k :: 0 <= i < |Table| && 0 <= k < |Table[i].keywords| ==>
              !Includes(LowerStr(query), Table[i].keywords[k])
    ensures Routed(query).section == General ==> Routed(query) == Fallback
  {
    var q := LowerStr(query);
    TableKeys();
    FirstMatchCases(q, Table);
    forall i | 0 <= i < |Table| {
      MentionsIff(q, Table[i].keywords);
    }
  }

  /** The query is answered from section `i` exactly when section `i` is the
      first in table order that the lower-cased query mentions; the answer is
      then that section's own key and content. */
  lemma RoutesToSectionIff(query: string, i: int)
    requires 0 <= i < |Table|
    ensures Routed(query) == RouteTo(Table[i]) <==> FirstMentioned(LowerStr(query), Table, i)
  {
    var q := LowerStr(query);
    TableKeys();
    FirstMatchCases(q, Table);
    if FirstMentioned(q, Table, i) {
      FirstMatchPicksFirst(q, Table, i);
    }
  }

  /** Every route is the fallback or the route of a table section, whose key
      is then one of the page's anchors. */
  lemma RoutedSectionIsAnchor(query: string)
    ensures Routed(query) == Fallback ||
            exists i :: 0 <= i < |Table| && Routed(query) == RouteTo(Table[i])
    ensures Routed(query).section != General ==>
            Routed(query).section in PageAnchors &&
            Routed(query).section in ["skills", "experience", "education", "projects"]
  {
    TableKeys();
    FirstMatchCases(LowerStr(query), Table);
  }

  /** Routing ignores letter case: only the lower-cased query is inspected. */
  lemma RoutingIgnoresCase(query: string)
    ensures Routed(query) == Routed(LowerStr(query))
  {
    LowerStrIdempotent(query);
  }

  /** A keyword spelled in any mix of cases inside the query selects its own
      section or an earlier one, never the general answer. */
  lemma KeywordInAnyCaseIsRouted(query: string, w: string, i: int, k: int)
    requires 0 <= i < |Table| && 0 <= k < |Table[i].keywords|
    requires LowerStr(w) == Table[i].keywords[k]
    requires Includes(query, w)
    ensures Routed(query).section != General
    ensures exists j :: 0 <= j <= i && Routed(query) == RouteTo(Table[j])
  {
    var q := LowerStr(query);
    IncludesLowerCase(query, w);
    MentionsIff(q, Table[i].keywords);
    var first := FirstIndex(q, Table, i);
    FirstMatchPicksFirst(q, Table, first);
    TableKeys();
  }

  /** "backend" is a keyword of both the experience and the projects section;
      since experience comes first, a query containing it never reaches the
      projects section through it. */
  lemma BackendNeverRoutesToProjects(query: string)
    requires Includes(LowerStr(query), "backend")
    ensures Routed(query) == RouteTo(SkillsSection) || Routed(query) == RouteTo(ExperienceSection)
  {
    var q := LowerStr(query);
    assert ExperienceSection.keywords[5] == "backend";
    MentionsIff(q, ExperienceSection.keywords);
    var first := FirstIndex(q, Table, 1);
    FirstMatchPicksFirst(q, Table, first);
  }

  /** The query "backend", in any capitalisation, is answered from the
      experience section, not from projects, which lists "backend" too. */
  lemma BackendRoutesToExperience(query: string)
    requires LowerStr(query) == "backend"
    ensures Routed(query) == RouteTo(ExperienceSection)
  {
    var q := LowerStr(query);
    BackendFirstMentionsExperience();
    FirstMatchPicksFirst(q, Table, 1);
  }

  lemma BackendFirstMentionsExperience()
    ensures FirstMentioned("backend", Table, 1)
  {
    forall j | 0 <= j < 1 ensures !Mentions("backend", Table[j].keywords) {
      assert !Mentions("backend", SkillsSection.keywords) by {
        NoKeywordOf("backend", SkillsSection.keywords);
      }
    }
    BackendMentionsBackend();
  }

  lemma BackendMentionsBackend()
    ensures Mentions("backend", ExperienceSection.keywords)
  {
    assert OccursAt("backend", "backend", 0);
    IncludesIff("backend", "backend");
    assert ExperienceSection.keywords[5] == "backend";
    MentionsIff("backend", ExperienceSection.keywords);
  }

  /** Matching is by substring, not whole word: "email", in any
      capitalisation, contains the education keyword "ai" and is answered
      from the education section. */
  lemma EmailRoutesToEducation(query: string)
    requires LowerStr(query) == "email"
    ensures Routed(query) == RouteTo(EducationSection)
  {
    var q := LowerStr(query);
    EmailFirstMentionsEducation();
    FirstMatchPicksFirst(q, Table, 2);
  }

  lemma EmailFirstMentionsEducation()
    ensures FirstMentioned("email", Table, 2)
  {
    forall j | 0 <= j < 2 ensures !Mentions("email", Table[j].keywords) {
      if j == 0 {
        assert !Mentions("email", SkillsSection.keywords) by {
          NoKeywordOf("email", SkillsSection.keywords);
        }
      } else {
        assert !Mentions("email", ExperienceSection.keywords) by {
          NoKeywordOf("email", ExperienceSection.keywords);
        }
      }
    }
    EmailMentionsAi();
  }

  lemma EmailMentionsAi()
    ensures Mentions("email", EducationSection.keywords)
  {
    assert OccursAt("email", "ai", 2);
    IncludesIff("email", "ai");
    assert EducationSection.keywords[6] == "ai";
    MentionsIff("email", EducationSection.keywords);
  }

  /** A query mentions none of `keywords` when no position of it starts with
      the first two characters of any of them. */
  lemma NoKeywordOf(q: string, keywords: seq<string>)
    requires forall k :: 0 <= k < |keywords| ==> NoPairStart(q, keywords[k])
    ensures !Mentions(q, keywords)
  {
    forall k | 0 <= k < |keywords| ensures !Includes(q, keywords[k]) {
      NotIncludes(q, keywords[k]);
    }
    MentionsIff(q, keywords);
  }

  /** `source` and `sectionId` of a reply: the routed key, unless the route is
      the general answer. */
  function Tag(route: Route): Option<string>
  {
    if route.section != General then Some(route.section) else None
  }

  /** The message recording what the visitor typed, as typed. */
  function UserMessage(id: nat, text: string): ChatMessage
  {
    ChatMessage(id, User, text, None, None)
  }

  /** The bot's answer for a route. */
  function BotReply(id: nat, route: Route): ChatMessage
  {
    ChatMessage(id, Bot, route.content, Tag(route), Tag(route))
  }

  /** The two messages one send appends: the visitor's text with the first
      clock reading as id, then the routed answer with the second reading
      plus one. */
  function Exchange(text: string, sentAt: nat, repliedAt: nat): seq<ChatMessage>
  {
    [UserMessage(sentAt, text), BotReply(repliedAt + 1, Routed(text))]
  }

  /** A reply is tagged exactly when its route is not the general one; both
      tags are then the routed section, which is a page anchor, and the
      reply's text is the routed content. */
  lemma ReplyTagging(query: string, id: nat)
    ensures var m := BotReply(id, Routed(query));
            m.role == Bot && m.content == Routed(query).content &&
            m.source == m.sectionId &&
            (m.sectionId.Some? <==> Routed(query).section != General) &&
            (m.sectionId.Some? ==>
               m.sectionId.value == Routed(query).section &&
               m.sectionId.value in ["skills", "experience", "education", "projects"])
  {
    RoutedSectionIsAnchor(query);
  }

  /** A transcript as the widget builds it: the greeting, then pairs of a
      non-blank visitor message followed by the answer routed from it. */
  ghost predicate WellFormed(ms: seq<ChatMessage>)
  {
    |ms| % 2 == 1 && ms[0] == Greeting &&
    forall i :: 0 < i < |ms| && i % 2 == 1 ==>
      i + 1 < |ms| &&
      ms[i].role == User && ms[i].source == None && ms[i].sectionId == None &&
      !Blank(ms[i].content) &&
      ms[i + 1] == BotReply(ms[i + 1].id, Routed(ms[i].content))
  }

  /** Appending one exchange for a non-blank text keeps a transcript well formed. */
  lemma ExchangeKeepsWellFormed(ms: seq<ChatMessage>, text: string, sentAt: nat, repliedAt: nat)
    requires WellFormed(ms)
    requires !Blank(text)
    ensures WellFormed(ms + Exchange(text, sentAt, repliedAt))
  {
    var ms' := ms + Exchange(text, sentAt, repliedAt);
    forall i | 0 < i < |ms'| && i % 2 == 1
      ensures i + 1 < |ms'| && ms'[i].role == User && ms'[i].source == None &&
              ms'[i].sectionId == None && !Blank(ms'[i].content) &&
              ms'[i + 1] == BotReply(ms'[i + 1].id, Routed(ms'[i].content))
    {
      if i < |ms| {
        assert ms'[i] == ms[i] && ms'[i + 1] == ms[i + 1];
      } else {
        assert i == |ms|;
      }
    }
  }

  /** In a well-formed transcript only bot messages carry tags, `source` and
      `sectionId` agree, and every tag names a page anchor. */
  lemma TranscriptTagsAreAnchors(ms: seq<ChatMessage>, i: int)
    requires WellFormed(ms)
    requires 0 <= i < |ms|
    ensures ms[i].source == ms[i].sectionId
    ensures ms[i].sectionId.Some? ==>
              ms[i].role == Bot && ms[i].sectionId.value in PageAnchors
  {
    if i > 0 && i % 2 == 0 {
      var j := i - 1;
      assert 0 < j < |ms| && j % 2 == 1;
      var route := Routed(ms[j].content);
      assert ms[i] == BotReply(ms[i].id, route);
      RoutedSectionIsAnchor(ms[j].content);
    }
  }

  /** The widget's state: the transcript and the text in the input box. */
  class ChatWindow {
    var messages: seq<ChatMessage>
    var input: string

    ghost predicate Valid()
      reads this
    {
      WellFormed(messages)
    }

    /** A fresh widget shows only the greeting and an empty input box. */
    constructor ()
      ensures Valid()
      ensures messages == [Greeting] && input == ""
    {
      messages := [Greeting];
      input := "";
    }

    /** Typing into the input box replaces its text and nothing else. */
    method SetInput(value: string)
      requires Valid()
      modifies this
      ensures Valid()
      ensures messages == old(messages) && input == value
    {
      input := value;
    }

    /** `handleSendMessage`: a blank input is ignored; otherwise the visitor's
        text and the routed answer are appended and the input box cleared.
        `sentAt` and `repliedAt` are the two readings of the clock. */
    method HandleSendMessage(sentAt: nat, repliedAt: nat)
      requires Valid()
      modifies this
      ensures Valid()
      ensures Blank(old(input)) ==> messages == old(messages) && input == old(input)
      ensures !Blank(old(input)) ==>
                messages == old(messages) + Exchange(old(input), sentAt, repliedAt) &&
                input == ""
    {
      TrimEmptyIff(input);
      if Trim(input) == [] {
        return;
      }
      var userMessage := UserMessage(sentAt, input);
      var route := FindRelevantSection(input);
      var botMessage := BotReply(repliedAt + 1, route);
      ExchangeKeepsWellFormed(messages, input, sentAt, repliedAt);
      messages := messages + [userMessage, botMessage];
      input := "";
    }
  }
}
