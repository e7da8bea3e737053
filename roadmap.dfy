/**
 * The two collapsible roadmap pages (src/pages/FullStackJavaScriptRoadmap.jsx
 * and src/pages/MinimalistDataAnalystRoadmap.jsx). Both keep two maps from
 * id to "expanded", one for sections and one for topics, and flip one entry
 * per click; they differ only in their tables of sections, so the view is
 * modelled once and built from either table.
 *
 * Titles, topic names and subtopic texts are presentation; the tables keep
 * the ids, which are what the toggles act on.
 */
module Roadmap {

  /** A section of the table with the ids of its topics, in display order. */
  datatype Section = Section(id: string, topics: seq<string>)

  const FullStackFundamentals: seq<string> := ["js-basics", "js-advanced", "js-modern", "js-patterns", "js-dom"]
  const FullStackFrontend: seq<string> := ["frontend-html-css", "frontend-react", "frontend-react-advanced", "frontend-redux", "frontend-styling"]
  const FullStackBackend: seq<string> := ["backend-nodejs", "backend-express", "backend-rest", "backend-auth", "backend-testing"]
  const FullStackDatabase: seq<string> := ["database-postgres", "database-orm", "database-nosql", "database-data", "database-performance"]
  const FullStackDeployment: seq<string> := ["deployment-basics", "deployment-docker", "deployment-ci-cd", "deployment-cloud", "deployment-scaling"]
  const FullStackAdvanced: seq<string> := ["advanced-architecture", "advanced-typescript", "advanced-graphql", "advanced-realtime", "advanced-testing"]
  const FullStackSoft: seq<string> := ["soft-tools", "soft-practices", "soft-teamwork", "soft-career", "soft-communication"]

  function FullStackSections(): seq<Section> {
    [ Section("javascript-fundamentals", FullStackFundamentals),
      Section("frontend", FullStackFrontend),
      Section("backend", FullStackBackend),
      Section("database", FullStackDatabase),
      Section("deployment", FullStackDeployment),
      Section("advanced", FullStackAdvanced),
      Section("soft", FullStackSoft) ]
  }

  const DataAnalystFoundation: seq<string> := ["foundation-stats", "foundation-math", "foundation-programming", "foundation-datastructures", "foundation-business"]
  const DataAnalystTools: seq<string> := ["tools-excel", "tools-sql", "tools-python", "tools-viz", "tools-git"]
  const DataAnalystAnalysis: seq<string> := ["analysis-cleaning", "analysis-eda", "analysis-descriptive", "analysis-hypothesis", "analysis-ab"]
  const DataAnalystAdvanced: seq<string> := ["advanced-regression", "advanced-timeseries", "advanced-ml", "advanced-nlp", "advanced-bigdata"]
  const DataAnalystSoft: seq<string> := ["soft-communication", "soft-critical", "soft-problemsolving", "soft-domain", "soft-stakeholder"]

  function DataAnalystSections(): seq<Section> {
    [ Section("foundation", DataAnalystFoundation),
      Section("tools", DataAnalystTools),
      Section("analysis", DataAnalystAnalysis),
      Section("advanced", DataAnalystAdvanced),
      Section("soft", DataAnalystSoft) ]
  }

  /** `m[id]` read as a condition: a missing key is `undefined`, which is falsy. */
  predicate Expanded(m: map<string, bool>, id: string) {
    id in m && m[id]
  }

  /** `{...m, [id]: !m[id]}` */
  function Toggled(m: map<string, bool>, id: string): (r: map<string, bool>)
    ensures r.Keys == m.Keys + {id}
    ensures Expanded(r, id) <==> !Expanded(m, id)
    ensures forall k :: k in m && k != id ==> r[k] == m[k]
  {
    m[id := !Expanded(m, id)]
  }

  /** A second click on the same id restores what every id shows. */
  lemma ToggleTwice(m: map<string, bool>, id: string)
    ensures forall k :: Expanded(Toggled(Toggled(m, id), id), k) <==> Expanded(m, k)
  {
  }

  /** Clicks on two different ids commute. */
  lemma TogglesCommute(m: map<string, bool>, a: string, b: string)
    requires a != b
    ensures Toggled(Toggled(m, a), b) == Toggled(Toggled(m, b), a)
  {
  }

  /** No id occurs twice. */
  predicate NoDuplicates(ids: seq<string>) {
    forall i, j :: 0 <= i < j < |ids| ==> ids[i] != ids[j]
  }

  function SectionIds(sections: seq<Section>): (ids: seq<string>)
    ensures |ids| == |sections|
    ensures forall i :: 0 <= i < |sections| ==> ids[i] == sections[i].id
  {
    if sections == [] then [] else [sections[0].id] + SectionIds(sections[1..])
  }

  /** No topic id occurs twice, within a section or across sections. */
  predicate TopicsDistinct(sections: seq<Section>) {
    forall s1, t1, s2, t2 ::
      && 0 <= s1 < |sections| && 0 <= t1 < |sections[s1].topics|
      && 0 <= s2 < |sections| && 0 <= t2 < |sections[s2].topics|
      && (s1, t1) != (s2, t2)
      ==> sections[s1].topics[t1] != sections[s2].topics[t2]
  }

  /** The table's ids are usable as keys: section ids distinct, topic ids distinct. */
  predicate WellKeyed(sections: seq<Section>) {
    NoDuplicates(SectionIds(sections)) && TopicsDistinct(sections)
  }

  /** The topic ids of one section are distinct and all begin with the two characters `tag`. */
  predicate SectionKeyed(topics: seq<string>, tag: string) {
    && NoDuplicates(topics)
    && forall t :: 0 <= t < |topics| ==> |topics[t]| >= 2 && topics[t][..2] == tag
  }

  /**
   * Topic ids are distinct across the table when each section's are distinct
   * and each section marks its topics with a prefix of its own.
   */
  lemma DistinctByTag(sections: seq<Section>, tags: seq<string>)
    requires |tags| == |sections| && NoDuplicates(tags)
    requires forall s :: 0 <= s < |sections| ==> SectionKeyed(sections[s].topics, tags[s])
    ensures TopicsDistinct(sections)
  {
    forall s1, t1, s2, t2 |
      && 0 <= s1 < |sections| && 0 <= t1 < |sections[s1].topics|
      && 0 <= s2 < |sections| && 0 <= t2 < |sections[s2].topics|
      && (s1, t1) != (s2, t2)
      ensures sections[s1].topics[t1] != sections[s2].topics[t2]
    {
      assert SectionKeyed(sections[s1].topics, tags[s1]);
      assert SectionKeyed(sections[s2].topics, tags[s2]);
      if s1 == s2 {
        if t2 < t1 {
          assert sections[s2].topics[t2] != sections[s1].topics[t1];
        }
      } else {
        assert tags[s1] != tags[s2] by {
          if s2 < s1 {
            assert tags[s2] != tags[s1];
          }
        }
      }
    }
  }

  lemma FullStackFundamentalsKeyed() ensures SectionKeyed(FullStackFundamentals, "js") {}
  lemma FullStackFrontendKeyed() ensures SectionKeyed(FullStackFrontend, "fr") {}
  lemma FullStackBackendKeyed() ensures SectionKeyed(FullStackBackend, "ba") {}
  lemma FullStackDatabaseKeyed() ensures SectionKeyed(FullStackDatabase, "da") {}
  lemma FullStackDeploymentKeyed() ensures SectionKeyed(FullStackDeployment, "de") {}
  lemma FullStackAdvancedKeyed() ensures SectionKeyed(FullStackAdvanced, "ad") {}
  lemma FullStackSoftKeyed() ensures SectionKeyed(FullStackSoft, "so") {}

  /** Every full-stack section carries its own tag. */
  lemma FullStackSectionsKeyed(tags: seq<string>)
    requires tags == ["js", "fr", "ba", "da", "de", "ad", "so"]
    ensures |tags| == |FullStackSections()|
    ensures forall s :: 0 <= s < |FullStackSections()| ==> SectionKeyed(FullStackSections()[s].topics, tags[s])
  {
    var sections := FullStackSections();
    forall s | 0 <= s < |sections|
      ensures SectionKeyed(sections[s].topics, tags[s])
    {
      if s == 0 { FullStackFundamentalsKeyed(); }
      else if s == 1 { FullStackFrontendKeyed(); }
      else if s == 2 { FullStackBackendKeyed(); }
      else if s == 3 { FullStackDatabaseKeyed(); }
      else if s == 4 { FullStackDeploymentKeyed(); }
      else if s == 5 { FullStackAdvancedKeyed(); }
      else { FullStackSoftKeyed(); }
    }
  }

  /** The full-stack section ids are distinct. */
  lemma FullStackSectionIdsDistinct()
    ensures NoDuplicates(SectionIds(FullStackSections()))
  {
    assert SectionIds(FullStackSections()) == ["javascript-fundamentals", "frontend", "backend", "database", "deployment", "advanced", "soft"];
  }

  /** The full-stack table is well keyed. */
  lemma FullStackWellKeyed()
    ensures WellKeyed(FullStackSections())
  {
    var tags := ["js", "fr", "ba", "da", "de", "ad", "so"];
    FullStackSectionsKeyed(tags);
    assert NoDuplicates(tags);
    DistinctByTag(FullStackSections(), tags);
    FullStackSectionIdsDistinct();
  }

  lemma DataAnalystFoundationKeyed() ensures SectionKeyed(DataAnalystFoundation, "fo") {}
  lemma DataAnalystToolsKeyed() ensures SectionKeyed(DataAnalystTools, "to") {}
  lemma DataAnalystAnalysisKeyed() ensures SectionKeyed(DataAnalystAnalysis, "an") {}
  lemma DataAnalystAdvancedKeyed() ensures SectionKeyed(DataAnalystAdvanced, "ad") {}
  lemma DataAnalystSoftKeyed() ensures SectionKeyed(DataAnalystSoft, "so") {}

  /** Every data-analyst section carries its own tag. */
  lemma DataAnalystSectionsKeyed(tags: seq<string>)
    requires tags == ["fo", "to", "an", "ad", "so"]
    ensures |tags| == |DataAnalystSections()|
    ensures forall s :: 0 <= s < |DataAnalystSections()| ==> SectionKeyed(DataAnalystSections()[s].topics, tags[s])
  {
    var sections := DataAnalystSections();
    forall s | 0 <= s < |sections|
      ensures SectionKeyed(sections[s].topics, tags[s])
    {
      if s == 0 { DataAnalystFoundationKeyed(); }
      else if s == 1 { DataAnalystToolsKeyed(); }
      else if s == 2 { DataAnalystAnalysisKeyed(); }
      else if s == 3 { DataAnalystAdvancedKeyed(); }
      else { DataAnalystSoftKeyed(); }
    }
  }

  /** The data-analyst section ids are distinct. */
  lemma DataAnalystSectionIdsDistinct()
    ensures NoDuplicates(SectionIds(DataAnalystSections()))
  {
    assert SectionIds(DataAnalystSections()) == ["foundation", "tools", "analysis", "advanced", "soft"];
  }

  /** The data-analyst table is well keyed. */
  lemma DataAnalystWellKeyed()
    ensures WellKeyed(DataAnalystSections())
  {
    var tags := ["fo", "to", "an", "ad", "so"];
    DataAnalystSectionsKeyed(tags);
    assert NoDuplicates(tags);
    DistinctByTag(DataAnalystSections(), tags);
    DataAnalystSectionIdsDistinct();
  }

  /** The render gate: the subtopics of topic `t` of section `s` are on screen. */
  predicate SubtopicsShown(sections: seq<Section>, sectionMap: map<string, bool>, topicMap: map<string, bool>, s: int, t: int)
    requires 0 <= s < |sections| && 0 <= t < |sections[s].topics|
  {
    Expanded(sectionMap, sections[s].id) && Expanded(topicMap, sections[s].topics[t])
  }

  /**
   * In a well-keyed table a click on a topic changes whether subtopics are
   * shown for that one entry and no other; the entry itself flips when its
   * section is open.
   */
  lemma TopicClickAffectsOneEntry(sections: seq<Section>, sectionMap: map<string, bool>, topicMap: map<string, bool>,
                                  s: int, t: int, s2: int, t2: int)
    requires WellKeyed(sections)
    requires 0 <= s < |sections| && 0 <= t < |sections[s].topics|
    requires 0 <= s2 < |sections| && 0 <= t2 < |sections[s2].topics|
    ensures var after := Toggled(topicMap, sections[s].topics[t]);
      && ((s2, t2) != (s, t) ==>
            (SubtopicsShown(sections, sectionMap, after, s2, t2) <==> SubtopicsShown(sections, sectionMap, topicMap, s2, t2)))
      && (Expanded(sectionMap, sections[s].id) ==>
            (SubtopicsShown(sections, sectionMap, after, s, t) <==> !SubtopicsShown(sections, sectionMap, topicMap, s, t)))
  {
  }

  /** Likewise a click on a section header changes only that section's entries. */
  lemma SectionClickAffectsOneSection(sections: seq<Section>, sectionMap: map<string, bool>, topicMap: map<string, bool>,
                                      s: int, s2: int, t2: int)
    requires WellKeyed(sections)
    requires 0 <= s < |sections|
    requires 0 <= s2 < |sections| && 0 <= t2 < |sections[s2].topics|
    requires s2 != s
    ensures SubtopicsShown(sections, Toggled(sectionMap, sections[s].id), topicMap, s2, t2)
        <==> SubtopicsShown(sections, sectionMap, topicMap, s2, t2)
  {
    var ids := SectionIds(sections);
    assert ids[s] != ids[s2] by {
      if s < s2 { assert ids[s] != ids[s2]; } else { assert ids[s2] != ids[s]; }
    }
  }

  class RoadmapView {
    const sections: seq<Section>
    var expandedSections: map<string, bool>
    var expandedTopics: map<string, bool>

    /** Everything starts collapsed: both maps are empty. */
    constructor (sections: seq<Section>)
      ensures this.sections == sections
      ensures expandedSections == map[] && expandedTopics == map[]
      ensures forall id :: !Expanded(expandedSections, id) && !Expanded(expandedTopics, id)
    {
      this.sections := sections;
      expandedSections := map[];
      expandedTopics := map[];
    }

    predicate Shown(s: int, t: int)
      reads this
      requires 0 <= s < |sections| && 0 <= t < |sections[s].topics|
    {
      SubtopicsShown(sections, expandedSections, expandedTopics, s, t)
    }

    /** `toggleSection`: flips one section and leaves the topic map alone. */
    method ToggleSection(id: string)
      modifies this
      ensures expandedSections == Toggled(old(expandedSections), id)
      ensures expandedTopics == old(expandedTopics)
    {
      expandedSections := expandedSections[id := !Expanded(expandedSections, id)];
    }

    /** `toggleTopic`: flips one topic and leaves the section map alone. */
    method ToggleTopic(id: string)
      modifies this
      ensures expandedTopics == Toggled(old(expandedTopics), id)
      ensures expandedSections == old(expandedSections)
    {
      expandedTopics := expandedTopics[id := !Expanded(expandedTopics, id)];
    }
  }

  /**
   * Collapsing a section and opening it again brings back exactly the
   * subtopic lists that were open: the topic map is not touched.
   */
  method CollapseAndReopen(view: RoadmapView, s: int)
    requires 0 <= s < |view.sections|
    modifies view
    ensures view.expandedTopics == old(view.expandedTopics)
    ensures forall k :: Expanded(view.expandedSections, k) <==> Expanded(old(view.expandedSections), k)
    ensures forall t :: 0 <= t < |view.sections[s].topics| ==> (view.Shown(s, t) <==> old(view.Shown(s, t)))
  {
    view.ToggleSection(view.sections[s].id);
    view.ToggleSection(view.sections[s].id);
    ToggleTwice(old(view.expandedSections), view.sections[s].id);
  }

  method NewFullStackRoadmap() returns (view: RoadmapView)
    ensures fresh(view) && view.sections == FullStackSections() && WellKeyed(view.sections)
    ensures view.expandedSections == map[] && view.expandedTopics == map[]
  {
    view := new RoadmapView(FullStackSections());
    FullStackWellKeyed();
  }

  method NewDataAnalystRoadmap() returns (view: RoadmapView)
    ensures fresh(view) && view.sections == DataAnalystSections() && WellKeyed(view.sections)
    ensures view.expandedSections == map[] && view.expandedTopics == map[]
  {
    view := new RoadmapView(DataAnalystSections());
    DataAnalystWellKeyed();
  }
}
