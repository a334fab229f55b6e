/** The static project catalog of `src/data/projects.js`. */
module ProjectsData {
  import opened Wrappers
  import opened Localization

  /**
   * A project image: the SVG placeholder the module builds from a label and
   * a fill colour (its base64 data URI is not modelled), or a remote URL.
   */
  datatype Image = Placeholder(caption: string, color: string) | Url(address: string)

  datatype Project = Project(
    id: int,
    title: LangText,
    description: LangText,
    image: Image,
    technologies: seq<string>,
    githubUrl: Option<string>,
    liveUrl: Option<string>,
    category: string)

  const Frontend := "frontend"
  const Fullstack := "fullstack"
  const DataScience := "dataScience"

  /** The three categories a catalog record may carry. */
  predicate KnownCategory(c: string) {
    c == Frontend || c == Fullstack || c == DataScience
  }

  const ECommerce := Project(
    1,
    map["en" := "E-commerce Platform", "zh" := "电商平台"],
    map["en" := "A full-stack e-commerce platform built with React and Node.js, featuring user authentication, product management, shopping cart, and payment integration.",
        "zh" := "基于React和Node.js构建的全栈电商平台，具有用户认证、产品管理、购物车和支付集成功能。"],
    Placeholder("E-commerce", "#3B82F6"),
    ["React", "Node.js", "MongoDB", "Stripe", "Tailwind CSS"],
    None,
    None,
    "fullstack")

  const TaskManager := Project(
    2,
    map["en" := "Task Management App", "zh" := "任务管理应用"],
    map["en" := "A collaborative task management application with real-time updates, drag-and-drop functionality, and team collaboration features.",
        "zh" := "具有实时更新、拖拽功能和团队协作特性的协作任务管理应用程序。"],
    Placeholder("Task Manager", "#10B981"),
    ["React", "Firebase", "Material-UI", "Socket.io"],
    Some("https://github.com/example/task-manager"),
    Some("https://task-manager-demo.com"),
    "frontend")

  const WeatherDashboard := Project(
    3,
    map["en" := "Weather Dashboard", "zh" := "天气仪表板"],
    map["en" := "A responsive weather dashboard that displays current weather conditions, forecasts, and interactive maps using external APIs.",
        "zh" := "响应式天气仪表板，使用外部API显示当前天气条件、预报和交互式地图。"],
    Placeholder("Weather", "#F59E0B"),
    ["Vue.js", "OpenWeather API", "Chart.js", "CSS Grid"],
    Some("https://github.com/example/weather-dashboard"),
    Some("https://weather-dashboard-demo.com"),
    "frontend")

  const ChatApp := Project(
    4,
    map["en" := "Chat Application", "zh" := "聊天应用"],
    map["en" := "Real-time chat application with multiple rooms, file sharing, and user presence indicators built with Socket.io.",
        "zh" := "使用Socket.io构建的实时聊天应用，具有多个房间、文件共享和用户在线状态指示器。"],
    Placeholder("Chat App", "#8B5CF6"),
    ["React", "Socket.io", "Express.js", "PostgreSQL"],
    Some("https://github.com/example/chat-app"),
    Some("https://chat-app-demo.com"),
    "fullstack")

  const DataViz := Project(
    5,
    map["en" := "Data Visualization Tool", "zh" := "数据可视化工具"],
    map["en" := "Interactive data visualization tool that transforms complex datasets into beautiful, interactive charts and graphs.",
        "zh" := "交互式数据可视化工具，将复杂数据集转换为美观的交互式图表和图形。"],
    Placeholder("Data Viz", "#EF4444"),
    ["D3.js", "Python", "Flask", "PostgreSQL"],
    Some("https://github.com/example/data-viz-tool"),
    Some("https://data-viz-demo.com"),
    "dataScience")

  const PortfolioSite := Project(
    6,
    map["en" := "Portfolio Website", "zh" := "个人作品集网站"],
    map["en" := "A responsive portfolio website showcasing projects and skills with smooth animations and modern design.",
        "zh" := "展示项目和技能的响应式作品集网站，具有流畅的动画和现代设计。"],
    Placeholder("Portfolio", "#06B6D4"),
    ["React", "Framer Motion", "Tailwind CSS", "Vite"],
    Some("https://github.com/example/portfolio"),
    Some("https://portfolio-demo.com"),
    "frontend")

  const PersonalBlog := Project(
    7,
    map["en" := "My Personal Blog", "zh" := "我的个人博客"],
    map["en" := "A modern blog built with Next.js and MDX, featuring dark mode, search functionality, and responsive design.",
        "zh" := "使用Next.js和MDX构建的现代博客，具有深色模式、搜索功能和响应式设计。"],
    Url("https://example.com/blog-screenshot.jpg"),
    ["Next.js", "MDX", "Tailwind CSS", "TypeScript"],
    Some("https://github.com/yourusername/my-blog"),
    Some("https://yourblog.com"),
    "frontend")

  /** The seven records in file order. */
  const Catalog: seq<Project> := [ECommerce, TaskManager, WeatherDashboard, ChatApp, DataViz, PortfolioSite, PersonalBlog]

  /** No two records share an id. */
  predicate UniqueIds(ps: seq<Project>) {
    forall i, j :: 0 <= i < j < |ps| ==> ps[i].id != ps[j].id
  }

  /** Number of records whose category is `c`: `projects.filter(p => p.category === c).length`. */
  function CountCategory(ps: seq<Project>, c: string): (n: nat)
    ensures n <= |ps|
    ensures n == 0 <==> forall i :: 0 <= i < |ps| ==> ps[i].category != c
    ensures n == |ps| <==> forall i :: 0 <= i < |ps| ==> ps[i].category == c
    decreases |ps|
  {
    if ps == [] then 0
    else (if ps[0].category == c then 1 else 0) + CountCategory(ps[1..], c)
  }

  /** When every record is in one of the three categories, the three counts add up to the total. */
  lemma {:induction false} CategoryCountsPartition(ps: seq<Project>)
    requires forall i :: 0 <= i < |ps| ==> KnownCategory(ps[i].category)
    ensures CountCategory(ps, Frontend) + CountCategory(ps, Fullstack) + CountCategory(ps, DataScience) == |ps|
    decreases |ps|
  {
    if ps != [] {
      CategoryCountsPartition(ps[1..]);
    }
  }

  /** Ids are 1 to 7 in catalog order, hence strictly ascending and unique. */
  lemma CatalogIds()
    ensures |Catalog| == 7
    ensures forall i :: 0 <= i < |Catalog| ==> Catalog[i].id == i + 1
    ensures forall i, j :: 0 <= i < j < |Catalog| ==> Catalog[i].id < Catalog[j].id
    ensures UniqueIds(Catalog)
  {
  }

  /** Every link a record carries is a non-empty string, hence truthy. */
  predicate NonEmptyLinks(p: Project) {
    (p.liveUrl.Some? ==> p.liveUrl.value != "") && (p.githubUrl.Some? ==> p.githubUrl.value != "")
  }

  /** Each record's texts are bilingual and its links non-empty; one lemma per record keeps each proof small. */
  lemma ECommerceTexts()
    ensures Bilingual(ECommerce.title) && Bilingual(ECommerce.description)
    ensures NonEmptyLinks(ECommerce)
  {
  }

  lemma TaskManagerTexts()
    ensures Bilingual(TaskManager.title) && Bilingual(TaskManager.description)
    ensures NonEmptyLinks(TaskManager)
  {
  }

  lemma WeatherDashboardTexts()
    ensures Bilingual(WeatherDashboard.title) && Bilingual(WeatherDashboard.description)
    ensures NonEmptyLinks(WeatherDashboard)
  {
  }

  lemma ChatAppTexts()
    ensures Bilingual(ChatApp.title) && Bilingual(ChatApp.description)
    ensures NonEmptyLinks(ChatApp)
  {
  }

  lemma DataVizTexts()
    ensures Bilingual(DataViz.title) && Bilingual(DataViz.description)
    ensures NonEmptyLinks(DataViz)
  {
  }

  lemma PortfolioSiteTexts()
    ensures Bilingual(PortfolioSite.title) && Bilingual(PortfolioSite.description)
    ensures NonEmptyLinks(PortfolioSite)
  {
  }

  lemma PersonalBlogTexts()
    ensures Bilingual(PersonalBlog.title) && Bilingual(PersonalBlog.description)
    ensures NonEmptyLinks(PersonalBlog)
  {
  }

  /** Every title and description has non-empty `en` and `zh` entries. */
  lemma CatalogBilingual()
    ensures forall i :: 0 <= i < |Catalog| ==> Bilingual(Catalog[i].title) && Bilingual(Catalog[i].description)
  {
    ECommerceTexts();
    TaskManagerTexts();
    WeatherDashboardTexts();
    ChatAppTexts();
    DataVizTexts();
    PortfolioSiteTexts();
    PersonalBlogTexts();
  }

  /** Every record lists at least one technology and carries a known category. */
  lemma CatalogShape()
    ensures forall i :: 0 <= i < |Catalog| ==> |Catalog[i].technologies| > 0
    ensures forall i :: 0 <= i < |Catalog| ==> KnownCategory(Catalog[i].category)
  {
  }

  /** Project 1 has neither a live nor a source link; every other project has both. */
  lemma CatalogLinks()
    ensures Catalog[0].liveUrl.None? && Catalog[0].githubUrl.None?
    ensures forall i :: 1 <= i < |Catalog| ==> Catalog[i].liveUrl.Some? && Catalog[i].githubUrl.Some?
    ensures forall i :: 0 <= i < |Catalog| ==> NonEmptyLinks(Catalog[i])
  {
    ECommerceTexts();
    TaskManagerTexts();
    WeatherDashboardTexts();
    ChatAppTexts();
    DataVizTexts();
    PortfolioSiteTexts();
    PersonalBlogTexts();
  }

  /** The catalog holds four frontend, two full-stack and one data-science project. */
  lemma CatalogCategoryCounts()
    ensures CountCategory(Catalog, Frontend) == 4
    ensures CountCategory(Catalog, Fullstack) == 2
    ensures CountCategory(Catalog, DataScience) == 1
  {
    var c := Catalog;
    assert CountCategory(c[6..], Frontend) == 1 && CountCategory(c[6..], Fullstack) == 0;
    assert CountCategory(c[5..], Frontend) == 2 && CountCategory(c[5..], Fullstack) == 0;
    assert CountCategory(c[4..], Frontend) == 2 && CountCategory(c[4..], Fullstack) == 0;
    assert CountCategory(c[3..], Frontend) == 2 && CountCategory(c[3..], Fullstack) == 1;
    assert CountCategory(c[2..], Frontend) == 3 && CountCategory(c[2..], Fullstack) == 1;
    assert CountCategory(c[1..], Frontend) == 4 && CountCategory(c[1..], Fullstack) == 1;
    assert CountCategory(c, Frontend) == 4 && CountCategory(c, Fullstack) == 2;
    CatalogShape();
    CategoryCountsPartition(c);
  }
}
