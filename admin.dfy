/** The admin editors: each keeps a working copy of one or two sections of
    the document, edits it one field or one list element at a time, and
    saves the whole document back with only those sections replaced. List
    elements are edited by their position, appended with a placeholder id
    taken from the clock, and removed by position. */
module Admin {
  import opened Wrappers
  import opened Text
  import opened Uuid
  import opened PortfolioTypes
  import opened LocalStore

  // -------------------------------------------------------------------
  // The login gate.

  const Password: string := "admin"
  const Dashboard: string := "/admin/dashboard"

  /** What submitting the login form does: go to the dashboard, or raise
      the error flag. */
  datatype LoginOutcome = Navigate(path: string) | ShowError

  function Login(pass: string): (r: LoginOutcome)
    ensures r == Navigate(Dashboard) <==> pass == Password
    ensures r == ShowError <==> pass != Password
  {
    if pass == Password then Navigate(Dashboard) else ShowError
  }

  // -------------------------------------------------------------------
  // Comma-separated lists: the about skills and a project's tech stack.

  /** `value.split(',').map(s => s.trim())` */
  function ParseList(value: string): (r: seq<string>)
    ensures |r| == CountChar(value, ',') + 1
    ensures forall k :: 0 <= k < |r| ==> NoEdgeWhitespace(r[k])
  {
    TrimAll(Split(value, ','))
  }

  /** `.map(s => s.trim())` */
  function TrimAll(pieces: seq<string>): (r: seq<string>)
    ensures |r| == |pieces| && forall k :: 0 <= k < |r| ==> r[k] == Trim(pieces[k])
  {
    seq(|pieces|, k requires 0 <= k < |pieces| => Trim(pieces[k]))
  }

  /** `items.join(', ')`, the text the input shows. */
  function JoinList(items: seq<string>): string {
    Join(items, ", ")
  }

  /** The items that survive a display and a re-parse unchanged: no comma,
      and nothing that trimming would remove. */
  predicate Listable(item: string) { ',' !in item && Trim(item) == item }

  /** Trimming takes off the one space the join put in front. */
  lemma TrimSpaced(item: string)
    requires NoEdgeWhitespace(item)
    ensures Trim(" " + item) == item
  {
    LeadingSpaceTrimmed(item);
    assert TrimEnd(item) == item;
  }

  lemma LeadingSpaceTrimmed(item: string)
    requires item == [] || !IsJsWhitespace(item[0])
    ensures TrimStart(" " + item) == item
  {
    var s := " " + item;
    assert s[1..] == item;
  }

  /** The first piece of a displayed list, with or without the space of
      the separator before it, trims to the item. */
  lemma PieceTrimmed(item: string, prefix: string)
    requires Trim(item) == item
    requires prefix == "" || prefix == " "
    ensures Trim(prefix + item) == item
  {
    if prefix == "" {
      assert prefix + item == item;
    } else {
      assert NoEdgeWhitespace(item);
      TrimSpaced(item);
    }
  }

  lemma TrimAllCons(first: string, rest: seq<string>)
    ensures TrimAll([first] + rest) == [Trim(first)] + TrimAll(rest)
  {
  }

  /** The text after a separator, `' ' + items.join(', ')`, and the whole
      text parse back to the items. */
  lemma {:induction false} ParseJoined(prefix: string, items: seq<string>)
    requires prefix == "" || prefix == " "
    requires |items| > 0 && forall k :: 0 <= k < |items| ==> Listable(items[k])
    ensures ParseList(prefix + JoinList(items)) == items
    decreases |items|
  {
    var first := items[0];
    assert Listable(first);
    PieceTrimmed(first, prefix);
    if |items| == 1 {
      assert ',' !in prefix + first;
      SplitWithoutSeparator(prefix + first, ',');
      assert prefix + JoinList(items) == prefix + first;
      TrimAllCons(prefix + first, []);
    } else {
      var rest := items[1..];
      assert forall k :: 0 <= k < |rest| ==> Listable(rest[k]) by {
        forall k | 0 <= k < |rest|
          ensures Listable(rest[k])
        {
          assert rest[k] == items[k + 1];
        }
      }
      assert JoinList(items) == first + ", " + JoinList(rest);
      Regroup(prefix, first, JoinList(rest));
      assert ',' !in prefix + first;
      SplitAfterPiece(prefix + first, ',', " " + JoinList(rest));
      ParseJoined(" ", rest);
      TrimAllCons(prefix + first, Split(" " + JoinList(rest), ','));
      HeadAndTail(items);
    }
  }

  lemma HeadAndTail(xs: seq<string>)
    requires |xs| > 0
    ensures xs == [xs[0]] + xs[1..]
  {
  }

  /** The text around a separator, regrouped as `split` sees it. */
  lemma Regroup(prefix: string, first: string, rest: string)
    ensures prefix + (first + ", " + rest) == (prefix + first) + [','] + (" " + rest)
  {
    var l, r := prefix + (first + ", " + rest), (prefix + first) + [','] + (" " + rest);
    assert |l| == |r|;
    forall i | 0 <= i < |l|
      ensures l[i] == r[i]
    {
      if i < |prefix| + |first| {
      } else if i == |prefix| + |first| {
      } else {
      }
    }
  }

  /** Displaying a list and parsing the text back gives the list, when it
      is not empty and no item holds a comma or edge white space. */
  lemma ParseJoinedList(items: seq<string>)
    requires |items| > 0
    requires forall k :: 0 <= k < |items| ==> Listable(items[k])
    ensures ParseList(JoinList(items)) == items
  {
    ParseJoined("", items);
    assert "" + JoinList(items) == JoinList(items);
  }

  /** The empty list is displayed as `''`, which parses to one empty item. */
  lemma EmptyListReparsed()
    ensures ParseList(JoinList([])) == [""]
  {
    assert Split("", ',') == [""];
  }

  // -------------------------------------------------------------------
  // Removing a list element: `list.filter((_, i) => i !== index)`.

  /** The filter over `xs`, whose first element sits at position `offset`
      of the whole list. */
  function KeepOthers<T>(xs: seq<T>, index: int, offset: nat): (r: seq<T>)
    ensures offset <= index < offset + |xs| ==> r == xs[..index - offset] + xs[index - offset + 1..]
    ensures !(offset <= index < offset + |xs|) ==> r == xs
    decreases |xs|
  {
    if xs == [] then []
    else
      var rest := KeepOthers(xs[1..], index, offset + 1);
      assert xs == [xs[0]] + xs[1..];
      if offset == index then rest else [xs[0]] + rest
  }

  /** Exactly the element at `index` is dropped and the order kept; an index
      outside the list leaves it unchanged. */
  function RemoveAt<T>(xs: seq<T>, index: int): (r: seq<T>)
    ensures 0 <= index < |xs| ==> |r| == |xs| - 1
                                  && (forall j :: 0 <= j < index ==> r[j] == xs[j])
                                  && (forall j :: index <= j < |r| ==> r[j] == xs[j + 1])
    ensures !(0 <= index < |xs|) ==> r == xs
  {
    KeepOthers(xs, index, 0)
  }

  // -------------------------------------------------------------------
  // Editing one field of one element: `updated[index] = { ...updated[index], [field]: value }`.

  datatype ExperienceField = ExpId | Role | Company | Year | ExpDescription

  function ExperienceValue(e: Experience, f: ExperienceField): string {
    match f
    case ExpId => e.id
    case Role => e.role
    case Company => e.company
    case Year => e.year
    case ExpDescription => e.description
  }

  /** `{ ...e, [field]: value }`: the named field takes the value and every
      other keeps its own. */
  function SetExperience(e: Experience, f: ExperienceField, value: string): (r: Experience)
    ensures ExperienceValue(r, f) == value
    ensures forall g :: g != f ==> ExperienceValue(r, g) == ExperienceValue(e, g)
  {
    match f
    case ExpId => e.(id := value)
    case Role => e.(role := value)
    case Company => e.(company := value)
    case Year => e.(year := value)
    case ExpDescription => e.(description := value)
  }

  /** `handleUpdateExp` */
  function UpdateExperience(xs: seq<Experience>, index: nat, f: ExperienceField, value: string)
    : (r: seq<Experience>)
    requires index < |xs|
    ensures |r| == |xs| && forall j :: 0 <= j < |xs| && j != index ==> r[j] == xs[j]
    ensures ExperienceValue(r[index], f) == value
    ensures forall g :: g != f ==> ExperienceValue(r[index], g) == ExperienceValue(xs[index], g)
  {
    xs[index := SetExperience(xs[index], f, value)]
  }

  datatype StatField = StatId | Caption | Value

  function StatValue(s: Stat, f: StatField): string {
    match f
    case StatId => s.id
    case Caption => s.caption
    case Value => s.value
  }

  function SetStat(s: Stat, f: StatField, value: string): (r: Stat)
    ensures StatValue(r, f) == value
    ensures forall g :: g != f ==> StatValue(r, g) == StatValue(s, g)
  {
    match f
    case StatId => s.(id := value)
    case Caption => s.(caption := value)
    case Value => s.(value := value)
  }

  /** `handleUpdateStat` */
  function UpdateStat(xs: seq<Stat>, index: nat, f: StatField, value: string): (r: seq<Stat>)
    requires index < |xs|
    ensures |r| == |xs| && forall j :: 0 <= j < |xs| && j != index ==> r[j] == xs[j]
    ensures StatValue(r[index], f) == value
    ensures forall g :: g != f ==> StatValue(r[index], g) == StatValue(xs[index], g)
  {
    xs[index := SetStat(xs[index], f, value)]
  }

  /** The text fields of a project; its tech stack is edited as a list. */
  datatype ProjectField = ProjectId | ProjectTitle | ProjectDescription | ImageUrl | DemoUrl | RepoUrl

  function ProjectValue(p: Project, f: ProjectField): string {
    match f
    case ProjectId => p.id
    case ProjectTitle => p.title
    case ProjectDescription => p.description
    case ImageUrl => p.imageUrl
    case DemoUrl => p.demoUrl
    case RepoUrl => p.repoUrl
  }

  function SetProject(p: Project, f: ProjectField, value: string): (r: Project)
    ensures ProjectValue(r, f) == value
    ensures forall g :: g != f ==> ProjectValue(r, g) == ProjectValue(p, g)
    ensures r.techStack == p.techStack
  {
    match f
    case ProjectId => p.(id := value)
    case ProjectTitle => p.(title := value)
    case ProjectDescription => p.(description := value)
    case ImageUrl => p.(imageUrl := value)
    case DemoUrl => p.(demoUrl := value)
    case RepoUrl => p.(repoUrl := value)
  }

  /** `handleUpdate` of the projects editor. */
  function UpdateProject(xs: seq<Project>, index: nat, f: ProjectField, value: string): (r: seq<Project>)
    requires index < |xs|
    ensures |r| == |xs| && forall j :: 0 <= j < |xs| && j != index ==> r[j] == xs[j]
    ensures ProjectValue(r[index], f) == value && r[index].techStack == xs[index].techStack
    ensures forall g :: g != f ==> ProjectValue(r[index], g) == ProjectValue(xs[index], g)
  {
    xs[index := SetProject(xs[index], f, value)]
  }

  /** `handleTechStack`: the project at `index` gets the parsed list as its
      tech stack and keeps every text field. */
  function SetTechStack(xs: seq<Project>, index: nat, value: string): (r: seq<Project>)
    requires index < |xs|
    ensures |r| == |xs| && forall j :: 0 <= j < |xs| && j != index ==> r[j] == xs[j]
    ensures r[index].techStack == ParseList(value)
    ensures forall g :: ProjectValue(r[index], g) == ProjectValue(xs[index], g)
  {
    xs[index := xs[index].(techStack := ParseList(value))]
  }

  datatype CertificateField = CertificateId | CertificateTitle | Issuer | CertificateDate | Url

  function CertificateValue(c: Certificate, f: CertificateField): string {
    match f
    case CertificateId => c.id
    case CertificateTitle => c.title
    case Issuer => c.issuer
    case CertificateDate => c.date
    case Url => c.url
  }

  function SetCertificate(c: Certificate, f: CertificateField, value: string): (r: Certificate)
    ensures CertificateValue(r, f) == value
    ensures forall g :: g != f ==> CertificateValue(r, g) == CertificateValue(c, g)
  {
    match f
    case CertificateId => c.(id := value)
    case CertificateTitle => c.(title := value)
    case Issuer => c.(issuer := value)
    case CertificateDate => c.(date := value)
    case Url => c.(url := value)
  }

  /** `handleUpdate` of the certificates editor. */
  function UpdateCertificate(xs: seq<Certificate>, index: nat, f: CertificateField, value: string)
    : (r: seq<Certificate>)
    requires index < |xs|
    ensures |r| == |xs| && forall j :: 0 <= j < |xs| && j != index ==> r[j] == xs[j]
    ensures CertificateValue(r[index], f) == value
    ensures forall g :: g != f ==> CertificateValue(r[index], g) == CertificateValue(xs[index], g)
  {
    xs[index := SetCertificate(xs[index], f, value)]
  }

  datatype PostField = PostId | PostTitle | Excerpt | Content | PostDate | ReadTime

  function PostValue(b: BlogPost, f: PostField): string {
    match f
    case PostId => b.id
    case PostTitle => b.title
    case Excerpt => b.excerpt
    case Content => b.content
    case PostDate => b.date
    case ReadTime => b.readTime
  }

  function SetPost(b: BlogPost, f: PostField, value: string): (r: BlogPost)
    ensures PostValue(r, f) == value
    ensures forall g :: g != f ==> PostValue(r, g) == PostValue(b, g)
  {
    match f
    case PostId => b.(id := value)
    case PostTitle => b.(title := value)
    case Excerpt => b.(excerpt := value)
    case Content => b.(content := value)
    case PostDate => b.(date := value)
    case ReadTime => b.(readTime := value)
  }

  /** `handleUpdate` of the blog editor. */
  function UpdatePost(xs: seq<BlogPost>, index: nat, f: PostField, value: string): (r: seq<BlogPost>)
    requires index < |xs|
    ensures |r| == |xs| && forall j :: 0 <= j < |xs| && j != index ==> r[j] == xs[j]
    ensures PostValue(r[index], f) == value
    ensures forall g :: g != f ==> PostValue(r[index], g) == PostValue(xs[index], g)
  {
    xs[index := SetPost(xs[index], f, value)]
  }

  /** Writing back the value a field already has changes nothing. */
  lemma SetPostUnchanged(b: BlogPost, f: PostField)
    ensures SetPost(b, f, PostValue(b, f)) == b
  {
  }

  /** The latest write to a field wins. */
  lemma SetPostTwice(b: BlogPost, f: PostField, v: string, w: string)
    ensures SetPost(SetPost(b, f, v), f, w) == SetPost(b, f, w)
  {
  }

  // -------------------------------------------------------------------
  // Appending an element. The id is `Date.now().toString()`, which the sync
  // layer does not take for a store id.

  /** The new element comes last with the clock as its id, every earlier
      element stays, and the sync layer sends the element without an id. */
  ghost predicate AppendedWithPlaceholder<T>(r: seq<T>, xs: seq<T>, id: T -> string, now: nat) {
    |r| == |xs| + 1 && r[..|xs|] == xs && id(r[|xs|]) == NatToString(now)
    && IdIfUuid(Some(id(r[|xs|]))) == None
  }

  function ExperienceId(e: Experience): string { e.id }
  function StatIdOf(s: Stat): string { s.id }
  function ProjectIdOf(p: Project): string { p.id }
  function CertificateIdOf(c: Certificate): string { c.id }
  function PostIdOf(b: BlogPost): string { b.id }

  /** `addExp` */
  function AddExperience(xs: seq<Experience>, now: nat): (r: seq<Experience>)
    ensures AppendedWithPlaceholder(r, xs, ExperienceId, now)
    ensures r[|xs|] == Experience(NatToString(now), "New Role", "Company Name", "2023 - Present",
                                  "Description of responsibilities.")
  {
    PlaceholderIsNotUuid(now);
    xs + [Experience(NatToString(now), "New Role", "Company Name", "2023 - Present",
                     "Description of responsibilities.")]
  }

  /** `addStat` */
  function AddStat(xs: seq<Stat>, now: nat): (r: seq<Stat>)
    ensures AppendedWithPlaceholder(r, xs, StatIdOf, now)
    ensures r[|xs|] == Stat(NatToString(now), "New Stat", "0+")
  {
    PlaceholderIsNotUuid(now);
    xs + [Stat(NatToString(now), "New Stat", "0+")]
  }

  /** `addProject` */
  function AddProject(xs: seq<Project>, now: nat): (r: seq<Project>)
    ensures AppendedWithPlaceholder(r, xs, ProjectIdOf, now)
    ensures r[|xs|] == Project(NatToString(now), "New Project", "", [], "", "", "")
  {
    PlaceholderIsNotUuid(now);
    xs + [Project(NatToString(now), "New Project", "", [], "", "", "")]
  }

  /** `addCert` */
  function AddCertificate(xs: seq<Certificate>, now: nat): (r: seq<Certificate>)
    ensures AppendedWithPlaceholder(r, xs, CertificateIdOf, now)
    ensures r[|xs|] == Certificate(NatToString(now), "New Certificate", "", "", "")
  {
    PlaceholderIsNotUuid(now);
    xs + [Certificate(NatToString(now), "New Certificate", "", "", "")]
  }

  /** `addPost`: the date is the part of the ISO timestamp `iso` before its
      `T`. */
  function AddPost(xs: seq<BlogPost>, now: nat, iso: string): (r: seq<BlogPost>)
    ensures AppendedWithPlaceholder(r, xs, PostIdOf, now)
    ensures r[|xs|] == BlogPost(NatToString(now), "New Post", "", "", Split(iso, 'T')[0], "5 min read")
    ensures 'T' !in r[|xs|].date
  {
    PlaceholderIsNotUuid(now);
    xs + [BlogPost(NatToString(now), "New Post", "", "", Split(iso, 'T')[0], "5 min read")]
  }

  // -------------------------------------------------------------------
  // Saving: `save({ ...data, <section>: <working copy> })`.

  datatype Section =
    | HeroSection | AboutSection | CertificatesSection | ProjectsSection | BlogsSection
    | ContactSection | ExperienceSection | StatsSection

  predicate SameSection(a: PortfolioData, b: PortfolioData, s: Section) {
    match s
    case HeroSection => a.hero == b.hero
    case AboutSection => a.about == b.about
    case CertificatesSection => a.certificates == b.certificates
    case ProjectsSection => a.projects == b.projects
    case BlogsSection => a.blogs == b.blogs
    case ContactSection => a.contact == b.contact
    case ExperienceSection => a.experience == b.experience
    case StatsSection => a.stats == b.stats
  }

  /** Two documents that agree on every section are the same document. */
  lemma SameSectionsSameDocument(a: PortfolioData, b: PortfolioData)
    requires forall s :: SameSection(a, b, s)
    ensures a == b
  {
    assert SameSection(a, b, HeroSection) && SameSection(a, b, AboutSection);
    assert SameSection(a, b, CertificatesSection) && SameSection(a, b, ProjectsSection);
    assert SameSection(a, b, BlogsSection) && SameSection(a, b, ContactSection);
    assert SameSection(a, b, ExperienceSection) && SameSection(a, b, StatsSection);
  }

  /** The hero and about editor's save. */
  function SaveHeroAbout(data: PortfolioData, hero: Hero, about: About): (r: PortfolioData)
    ensures r.hero == hero && r.about == about
    ensures forall s :: s != HeroSection && s != AboutSection ==> SameSection(r, data, s)
  {
    data.(hero := hero, about := about)
  }

  /** The experience and stats editor's save. */
  function SaveExperience(data: PortfolioData, experience: seq<Experience>, stats: seq<Stat>): (r: PortfolioData)
    ensures r.experience == experience && r.stats == stats
    ensures forall s :: s != ExperienceSection && s != StatsSection ==> SameSection(r, data, s)
  {
    data.(experience := experience, stats := stats)
  }

  function SaveProjects(data: PortfolioData, projects: seq<Project>): (r: PortfolioData)
    ensures r.projects == projects
    ensures forall s :: s != ProjectsSection ==> SameSection(r, data, s)
  {
    data.(projects := projects)
  }

  function SaveCertificates(data: PortfolioData, certificates: seq<Certificate>): (r: PortfolioData)
    ensures r.certificates == certificates
    ensures forall s :: s != CertificatesSection ==> SameSection(r, data, s)
  {
    data.(certificates := certificates)
  }

  function SaveBlogs(data: PortfolioData, blogs: seq<BlogPost>): (r: PortfolioData)
    ensures r.blogs == blogs
    ensures forall s :: s != BlogsSection ==> SameSection(r, data, s)
  {
    data.(blogs := blogs)
  }

  function SaveContact(data: PortfolioData, contact: Contact): (r: PortfolioData)
    ensures r.contact == contact
    ensures forall s :: s != ContactSection ==> SameSection(r, data, s)
  {
    data.(contact := contact)
  }

  /** Saving a working copy that was never edited stores the document as it
      was loaded. */
  lemma UneditedSaveKeepsDocument(data: PortfolioData)
    ensures SaveProjects(data, data.projects) == data
    ensures SaveHeroAbout(data, data.hero, data.about) == data
    ensures SaveExperience(data, data.experience, data.stats) == data
  {
  }

  /** Two editors saving one after the other, each from the document the
      other left: both edits are kept. */
  lemma SavesOfDifferentSectionsCommute(data: PortfolioData, projects: seq<Project>, blogs: seq<BlogPost>)
    ensures SaveBlogs(SaveProjects(data, projects), blogs) == SaveProjects(SaveBlogs(data, blogs), projects)
  {
  }

  /** A save and a reload: the next `get` shows the edited section and every
      other section as loaded. */
  lemma SavedProjectsReload(slots: Slots, data: PortfolioData, projects: seq<Project>)
    ensures var d := Read(Write(slots, SaveProjects(data, projects))).data;
            d.projects == projects && forall s :: s != ProjectsSection ==> SameSection(d, data, s)
  {
    ReadAfterWrite(slots, SaveProjects(data, projects));
  }

  /** The state of `usePortfolioData`: the loaded document (null until the
      first `get` returns) and the loading flag of a save. */
  class Editor {
    var data: Option<PortfolioData>
    var loading: bool

    constructor ()
      ensures data == None && !loading
    {
      data, loading := None, false;
    }

    /** `fetchData` */
    method FetchData(store: LocalStorage)
      modifies this, store
      ensures data.Some? && Fetch(data.value, store.slots) == Read(old(store.slots))
      ensures loading == old(loading)
    {
      var d := store.Get();
      data := Some(d);
    }

    /** `save`: the store is updated, then the hook's document is replaced
        and the loading flag lowered. */
    method Save(store: LocalStorage, newData: PortfolioData)
      modifies this, store
      ensures store.slots == Write(old(store.slots), newData)
      ensures data == Some(newData) && !loading
    {
      loading := true;
      store.Update(newData);
      data := Some(newData);
      loading := false;
    }
  }
}
