/** The chat widget's fixed knowledge table and the first-match search over it
    (`knowledgeBase` and `findRelevantSection` in Chatbot.tsx). */
module Knowledge {
  import opened Text

  /** One entry of the table: the section's key, its canned answer and the
      lower-case keywords that select it. */
  datatype Section = Section(id: string, content: string, keywords: seq<string>)

  /** What the search returns: the chosen section's key and its answer. */
  datatype Route = Route(section: string, content: string)

  const General: string := "general"
  const GeneralReply: string :=
    "I'd be happy to help you learn more about Jithin's background and expertise!"

  /** The answer given when no keyword of any section occurs in the query. */
  const Fallback: Route := Route(General, GeneralReply)

  const SkillsSection: Section := Section(
    "skills",
    "Jithin is skilled in Python, LangChain, LlamaIndex, RAG, Vector Databases, Node.js, FastAPI, React, Angular, and various AI/ML technologies.",
    ["skills", "technologies", "programming", "languages", "python", "javascript", "react", "angular", "langchain"])

  const ExperienceSection: Section := Section(
    "experience",
    "Jithin works as Associate Consultant at Gapblue Software Labs since 2023, where he engineered scalable backend systems, integrated GPT models with vector databases, and led development of Knowledge Explorer.",
    ["experience", "work", "job", "consultant", "gapblue", "backend", "api", "performance"])

  const EducationSection: Section := Section(
    "education",
    "Jithin has an MSc in Computer Science with AI specialization from Cochin University (2021-2023) and BCA from Rajagiri College (2018-2021). His projects include weather prediction systems and e-commerce applications.",
    ["education", "degree", "university", "college", "msc", "bca", "ai", "computer science"])

  const ProjectsSection: Section := Section(
    "projects",
    "Key projects include Knowledge Explorer (multilingual AI search), RAG Pipeline System, Weather Prediction System using hybrid ML models, and scalable backend systems with 40% performance improvement.",
    ["projects", "knowledge explorer", "rag", "weather", "prediction", "backend", "multilingual"])

  /** The table in the order its entries are enumerated. */
  const Table: seq<Section> := [SkillsSection, ExperienceSection, EducationSection, ProjectsSection]

  /** The `id` anchors of the page's sections, in page order. */
  const PageAnchors: seq<string> := ["hero", "skills", "experience", "education", "projects", "contact"]

  /** `keywords.some(k => query.includes(k))`. */
  predicate Mentions(query: string, keywords: seq<string>)
  {
    |keywords| > 0 && (Includes(query, keywords[0]) || Mentions(query, keywords[1..]))
  }

  /** The route that names `s` and carries its answer. */
  function RouteTo(s: Section): Route
  {
    Route(s.id, s.content)
  }

  /** The route of the first section of `table` one of whose keywords occurs
      in `query`, or the fallback when none does. */
  function FirstMatch(query: string, table: seq<Section>): Route
  {
    if |table| == 0 then Fallback
    else if Mentions(query, table[0].keywords) then RouteTo(table[0])
    else FirstMatch(query, table[1..])
  }

  /** `some` holds exactly when one of the keywords is a substring of the query. */
  lemma {:induction false} MentionsIff(query: string, keywords: seq<string>)
    ensures Mentions(query, keywords) <==>
            exists j :: 0 <= j < |keywords| && Includes(query, keywords[j])
  {
    if |keywords| > 0 {
      MentionsIff(query, keywords[1..]);
      if j :| 1 <= j < |keywords| && Includes(query, keywords[j]) {
        assert keywords[1..][j - 1] == keywords[j];
      }
    }
  }

  /** Section `i` is the first section of `table` that the query mentions. */
  predicate FirstMentioned(query: string, table: seq<Section>, i: int)
  {
    0 <= i < |table| && Mentions(query, table[i].keywords) &&
    forall j :: 0 <= j < i ==> !Mentions(query, table[j].keywords)
  }

  /** The search stops at the first mentioned section and answers with that
      section's own key and content. */
  lemma {:induction false} FirstMatchPicksFirst(query: string, table: seq<Section>, i: int)
    requires FirstMentioned(query, table, i)
    ensures FirstMatch(query, table) == RouteTo(table[i])
  {
    if i > 0 {
      assert !Mentions(query, table[0].keywords);
      assert FirstMentioned(query, table[1..], i - 1) by {
        forall j | 0 <= j < i - 1 ensures !Mentions(query, table[1..][j].keywords) {
          assert table[1..][j] == table[j + 1];
        }
      }
      FirstMatchPicksFirst(query, table[1..], i - 1);
    }
  }

  /** With no section mentioned the search falls back to the general answer. */
  lemma {:induction false} FirstMatchFallsBack(query: string, table: seq<Section>)
    requires forall j :: 0 <= j < |table| ==> !Mentions(query, table[j].keywords)
    ensures FirstMatch(query, table) == Fallback
  {
    if |table| > 0 {
      assert forall j :: 0 <= j < |table| - 1 ==> table[1..][j] == table[j + 1];
      FirstMatchFallsBack(query, table[1..]);
    }
  }

  /** Every result of the search is either the fallback with no section
      mentioned, or the route of the first mentioned section. */
  lemma FirstMatchCases(query: string, table: seq<Section>)
    ensures (FirstMatch(query, table) == Fallback &&
             forall j :: 0 <= j < |table| ==> !Mentions(query, table[j].keywords)) ||
            exists i :: FirstMentioned(query, table, i) && FirstMatch(query, table) == RouteTo(table[i])
  {
    if i :| 0 <= i < |table| && Mentions(query, table[i].keywords) {
      var first := FirstIndex(query, table, i);
      FirstMatchPicksFirst(query, table, first);
    } else {
      FirstMatchFallsBack(query, table);
    }
  }

  /** The smallest index at or below `bound` whose section the query mentions. */
  ghost function FirstIndex(query: string, table: seq<Section>, bound: int): (i: int)
    requires 0 <= bound < |table| && Mentions(query, table[bound].keywords)
    ensures FirstMentioned(query, table, i) && i <= bound
    decreases bound
  {
    if exists j :: 0 <= j < bound && Mentions(query, table[j].keywords) then
      var j :| 0 <= j < bound && Mentions(query, table[j].keywords);
      FirstIndex(query, table, j)
    else bound
  }

  /** The table's keys are distinct page anchors, none of them `"general"`. */
  lemma TableKeys()
    ensures |Table| == 4
    ensures forall i, j :: 0 <= i < j < |Table| ==> Table[i].id != Table[j].id
    ensures forall i :: 0 <= i < |Table| ==> Table[i].id != General && Table[i].id in PageAnchors
  {
  }

  /** Every keyword of the table is already lower case, so each can match a
      lower-cased query. */
  lemma KeywordsLowerCase()
    ensures forall i, k :: 0 <= i < |Table| && 0 <= k < |Table[i].keywords| ==> IsLowerCase(Table[i].keywords[k])
  {
    SkillsSectionLowerCase();
    ExperienceSectionLowerCase();
    EducationSectionLowerCase();
    ProjectsSectionLowerCase();
  }

  lemma SkillsSectionLowerCase()
    ensures forall k :: 0 <= k < |SkillsSection.keywords| ==> IsLowerCase(SkillsSection.keywords[k])
  {
    assert IsLowerCase("skills");
    assert IsLowerCase("technologies");
    assert IsLowerCase("programming");
    assert IsLowerCase("languages");
    assert IsLowerCase("python");
    assert IsLowerCase("javascript");
    assert IsLowerCase("react");
    assert IsLowerCase("angular");
    assert IsLowerCase("langchain");
  }

  lemma ExperienceSectionLowerCase()
    ensures forall k :: 0 <= k < |ExperienceSection.keywords| ==> IsLowerCase(ExperienceSection.keywords[k])
  {
    assert IsLowerCase("experience");
    assert IsLowerCase("work");
    assert IsLowerCase("job");
    assert IsLowerCase("consultant");
    assert IsLowerCase("gapblue");
    assert IsLowerCase("backend");
    assert IsLowerCase("api");
    assert IsLowerCase("performance");
  }

  lemma EducationSectionLowerCase()
    ensures forall k :: 0 <= k < |EducationSection.keywords| ==> IsLowerCase(EducationSection.keywords[k])
  {
    assert IsLowerCase("education");
    assert IsLowerCase("degree");
    assert IsLowerCase("university");
    assert IsLowerCase("college");
    assert IsLowerCase("msc");
    assert IsLowerCase("bca");
    assert IsLowerCase("ai");
    assert IsLowerCase("computer science");
  }

  lemma ProjectsSectionLowerCase()
    ensures forall k :: 0 <= k < |ProjectsSection.keywords| ==> IsLowerCase(ProjectsSection.keywords[k])
  {
    assert IsLowerCase("projects");
    assert IsLowerCase("knowledge explorer");
    assert IsLowerCase("rag");
    assert IsLowerCase("weather");
    assert IsLowerCase("prediction");
    assert IsLowerCase("backend");
    assert IsLowerCase("multilingual");
  }
}
