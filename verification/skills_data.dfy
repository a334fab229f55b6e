/** Skill levels and the skill list of `src/data/skills.js`. */
module SkillsData {
  import opened Localization

  /** One entry of `skillLevels`: star count, label, Tailwind colour class and description. */
  datatype LevelConfig = LevelConfig(stars: int, text: LangText, color: string, description: LangText)

  datatype Skill = Skill(name: string, level: string)

  datatype SkillCategory = SkillCategory(category: LangText, skills: seq<Skill>)

  const Beginner := "beginner"
  const Intermediate := "intermediate"
  const Advanced := "advanced"
  const Expert := "expert"

  const BeginnerConfig := LevelConfig(
    2, map["en" := "Beginner", "zh" := "初级"], "text-gray-400",
    map["en" := "Basic understanding, can complete simple tasks with guidance",
        "zh" := "基础理解，在指导下能完成简单任务"])

  const IntermediateConfig := LevelConfig(
    3, map["en" := "Intermediate", "zh" := "中级"], "text-yellow-400",
    map["en" := "Familiar with common features, can work independently on most tasks",
        "zh" := "熟悉常用功能，能独立完成大部分任务"])

  const AdvancedConfig := LevelConfig(
    4, map["en" := "Advanced", "zh" := "高级"], "text-orange-400",
    map["en" := "Proficient in the technology, can solve complex problems and optimize performance",
        "zh" := "精通该技术，能解决复杂问题和优化性能"])

  const ExpertConfig := LevelConfig(
    5, map["en" := "Expert", "zh" := "专家"], "text-blue-500",
    map["en" := "Deep mastery, can architect solutions and mentor others",
        "zh" := "深度掌握，能架构设计和指导他人"])

  const SkillLevels: map<string, LevelConfig> := map[
    Beginner := BeginnerConfig,
    Intermediate := IntermediateConfig,
    Advanced := AdvancedConfig,
    Expert := ExpertConfig]

  /** `Object.entries(skillLevels)` in declaration order, as the legend lists them. */
  const LevelOrder: seq<string> := [Beginner, Intermediate, Advanced, Expert]

  const SkillsList: seq<SkillCategory> := [
    SkillCategory(
      map["en" := "Frontend", "zh" := "前端"],
      [Skill("React", "expert"), Skill("Vue.js", "advanced"), Skill("TypeScript", "advanced"),
       Skill("Tailwind CSS", "expert"), Skill("Framer Motion", "intermediate")]),
    SkillCategory(
      map["en" := "Backend", "zh" := "后端"],
      [Skill("Node.js", "advanced"), Skill("Python", "advanced"), Skill("Express.js", "expert"),
       Skill("PostgreSQL", "intermediate"), Skill("MongoDB", "advanced")]),
    SkillCategory(
      map["en" := "Tools & Others", "zh" := "工具与其他"],
      [Skill("Git", "expert"), Skill("Docker", "intermediate"), Skill("AWS", "beginner"),
       Skill("Firebase", "advanced"), Skill("Figma", "advanced")])
  ]

  /**
   * `skillLevels[level] || skillLevels.beginner`, the lookup both the About
   * page and the tech timeline define: the configured level, or the
   * beginner configuration for any name that is not a level.
   */
  function GetSkillLevel(level: string): (r: LevelConfig)
    ensures level in SkillLevels ==> r == SkillLevels[level]
    ensures level !in SkillLevels ==> r == BeginnerConfig
    ensures 2 <= r.stars <= 5
  {
    if level in SkillLevels then SkillLevels[level] else SkillLevels[Beginner]
  }

  /** Star counts strictly increase from beginner to expert: 2, 3, 4, 5. */
  lemma StarsIncrease()
    ensures SkillLevels.Keys == {Beginner, Intermediate, Advanced, Expert}
    ensures SkillLevels[Beginner].stars == 2 && SkillLevels[Intermediate].stars == 3
    ensures SkillLevels[Advanced].stars == 4 && SkillLevels[Expert].stars == 5
    ensures forall i, j :: 0 <= i < j < |LevelOrder| ==> SkillLevels[LevelOrder[i]].stars < SkillLevels[LevelOrder[j]].stars
  {
  }

  /** Every star count lies in [2, 5], so the legend's `5 - stars` empty stars is never negative. */
  lemma StarsInRange()
    ensures forall l :: l in SkillLevels ==> 2 <= SkillLevels[l].stars <= 5 && 5 - SkillLevels[l].stars >= 0
  {
  }

  /** Every level named in the skill list is configured, so the beginner fallback never fires on it. */
  lemma SkillLevelsKnown()
    ensures forall c, s :: 0 <= c < |SkillsList| && 0 <= s < |SkillsList[c].skills| ==>
      SkillsList[c].skills[s].level in SkillLevels
  {
  }

  /** Every label, description and category name has both an `en` and a `zh` entry. */
  lemma SkillsBilingual()
    ensures forall l :: l in SkillLevels ==> Bilingual(SkillLevels[l].text) && Bilingual(SkillLevels[l].description)
    ensures forall c :: 0 <= c < |SkillsList| ==> Bilingual(SkillsList[c].category)
  {
    assert Bilingual(BeginnerConfig.text) && Bilingual(BeginnerConfig.description);
    assert Bilingual(IntermediateConfig.text) && Bilingual(IntermediateConfig.description);
    assert Bilingual(AdvancedConfig.text) && Bilingual(AdvancedConfig.description);
    assert Bilingual(ExpertConfig.text) && Bilingual(ExpertConfig.description);
  }

  /** Three categories of exactly five skills each. */
  lemma SkillsShape()
    ensures |SkillsList| == 3
    ensures forall c :: 0 <= c < |SkillsList| ==> |SkillsList[c].skills| == 5
  {
  }
}
