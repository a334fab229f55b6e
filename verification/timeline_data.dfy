/** The technology timeline of `src/data/timeline.js`. */
module TimelineData {
  import opened Localization

  /** One technology badge: name, lucide icon name, colour category and skill level name. */
  datatype Tech = Tech(name: string, icon: string, category: string, level: string)

  datatype TimelineEntry = TimelineEntry(
    year: int,
    title: LangText,
    description: LangText,
    technologies: seq<Tech>,
    milestone: bool,
    color: string)

  const TechTimelineData: seq<TimelineEntry> := [
    TimelineEntry(
      2020,
      map["en" := "Programming Foundation", "zh" := "编程基础"],
      map["en" := "Started learning programming fundamentals and web development basics",
          "zh" := "开始学习编程基础和Web开发基础知识"],
      [Tech("HTML", "Code", "frontend", "beginner"),
       Tech("CSS", "Palette", "frontend", "beginner"),
       Tech("JavaScript", "Zap", "frontend", "beginner"),
       Tech("Git", "GitBranch", "tools", "beginner")],
      true,
      "bg-blue-500"),
    TimelineEntry(
      2021,
      map["en" := "Frontend Frameworks", "zh" := "前端框架"],
      map["en" := "Mastered modern frontend frameworks and started building interactive applications",
          "zh" := "掌握现代前端框架，开始构建交互式应用程序"],
      [Tech("React", "Atom", "frontend", "intermediate"),
       Tech("Vue.js", "Triangle", "frontend", "intermediate"),
       Tech("Tailwind CSS", "Paintbrush", "frontend", "intermediate"),
       Tech("Webpack", "Package", "tools", "beginner")],
      false,
      "bg-green-500"),
    TimelineEntry(
      2022,
      map["en" := "Full-Stack Development", "zh" := "全栈开发"],
      map["en" := "Expanded to backend development and database management",
          "zh" := "扩展到后端开发和数据库管理"],
      [Tech("Node.js", "Server", "backend", "intermediate"),
       Tech("Express.js", "Zap", "backend", "intermediate"),
       Tech("MongoDB", "Database", "database", "intermediate"),
       Tech("PostgreSQL", "Database", "database", "beginner"),
       Tech("TypeScript", "FileType", "frontend", "intermediate")],
      true,
      "bg-purple-500"),
    TimelineEntry(
      2023,
      map["en" := "Advanced Technologies", "zh" := "高级技术"],
      map["en" := "Deepened expertise in advanced technologies and cloud services",
          "zh" := "深化高级技术和云服务的专业知识"],
      [Tech("Docker", "Container", "tools", "intermediate"),
       Tech("AWS", "Cloud", "cloud", "beginner"),
       Tech("Firebase", "Flame", "cloud", "advanced"),
       Tech("GraphQL", "Share2", "backend", "intermediate"),
       Tech("Next.js", "ArrowRight", "frontend", "advanced")],
      false,
      "bg-orange-500"),
    TimelineEntry(
      2024,
      map["en" := "Expert Level & Leadership", "zh" := "专家级别与领导力"],
      map["en" := "Achieved expert level in core technologies and started mentoring others",
          "zh" := "在核心技术方面达到专家级别，开始指导他人"],
      [Tech("React", "Atom", "frontend", "expert"),
       Tech("Framer Motion", "Zap", "frontend", "advanced"),
       Tech("Python", "FileCode", "backend", "advanced"),
       Tech("Figma", "Figma", "design", "advanced"),
       Tech("AI/ML", "Brain", "ai", "beginner")],
      true,
      "bg-red-500")
  ]

  const TechCategoryColors: map<string, string> := map[
    "frontend" := "bg-blue-100 text-blue-800 dark:bg-blue-900 dark:text-blue-200",
    "backend" := "bg-green-100 text-green-800 dark:bg-green-900 dark:text-green-200",
    "database" := "bg-purple-100 text-purple-800 dark:bg-purple-900 dark:text-purple-200",
    "tools" := "bg-gray-100 text-gray-800 dark:bg-gray-700 dark:text-gray-200",
    "cloud" := "bg-orange-100 text-orange-800 dark:bg-orange-900 dark:text-orange-200",
    "design" := "bg-pink-100 text-pink-800 dark:bg-pink-900 dark:text-pink-200",
    "ai" := "bg-indigo-100 text-indigo-800 dark:bg-indigo-900 dark:text-indigo-200"]

  /** Five entries for the years 2020 to 2024, strictly increasing, so the carousel always has an entry. */
  lemma TimelineYears()
    ensures |TechTimelineData| == 5 && |TechTimelineData| >= 1
    ensures forall i :: 0 <= i < |TechTimelineData| ==> TechTimelineData[i].year == 2020 + i
    ensures forall i, j :: 0 <= i < j < |TechTimelineData| ==> TechTimelineData[i].year < TechTimelineData[j].year
  {
  }

  /** Exactly the 2020, 2022 and 2024 entries are milestones. */
  lemma TimelineMilestones()
    ensures forall i :: 0 <= i < |TechTimelineData| ==>
      (TechTimelineData[i].milestone <==> TechTimelineData[i].year in {2020, 2022, 2024})
  {
  }

  /** Every title and description has both an `en` and a `zh` entry. */
  lemma TimelineBilingual()
    ensures forall i :: 0 <= i < |TechTimelineData| ==>
      Bilingual(TechTimelineData[i].title) && Bilingual(TechTimelineData[i].description)
  {
  }

  /** Every technology's category has a configured colour, so the `tools` fallback never fires. */
  lemma TimelineCategoriesColored()
    ensures "tools" in TechCategoryColors
    ensures forall i, k :: 0 <= i < |TechTimelineData| && 0 <= k < |TechTimelineData[i].technologies| ==>
      TechTimelineData[i].technologies[k].category in TechCategoryColors
  {
  }
}
