/** The client sync layer (portfolio/services/db.ts): `get` reads the six
    resources and maps the store's field names and shapes onto the portfolio
    document, with per-field defaults; `update` splits a document into an
    ordered sequence of independent write requests. The six responses `get`
    awaits, and the answers to the writes, are inputs of the model. */
module SyncClient {
  import opened Wrappers
  import opened Text
  import opened PortfolioTypes
  import opened Uuid
  import opened Slug

  /** `s || d` for a string field, where an absent field is read as "". */
  function Or(s: string, d: string): (r: string)
    ensures s != "" ==> r == s
    ensures s == "" ==> r == d
  {
    if s != "" then s else d
  }

  // ---------------------------------------------------------------------
  // Read side: the `data` of each GET response, in the store's field names.
  // `None` is a response without `data` (a failed request, or the `{}` a
  // singleton endpoint returns when no row is active).

  datatype HeroRecord = HeroRecord(
    id: string, title: string, subtitle: string, background_image_url: string, cta_text: string,
    social_links: Option<Contact>)

  datatype AboutRecord = AboutRecord(
    id: string, bio: string, skills: Option<seq<string>>, experience: Option<seq<Experience>>)

  datatype ProjectRecord = ProjectRecord(
    id: string, title: string, short_description: string, technologies: Option<seq<string>>,
    thumbnail_url: string, demo_url: string, github_url: string)

  datatype CertificateRecord = CertificateRecord(
    id: string, title: string, issuer: string, issue_date: string, credential_url: string)

  /** Blog rows carry no `readTime` column. */
  datatype BlogRecord = BlogRecord(
    id: string, title: string, excerpt: string, content: string, published_at: string)

  datatype Responses = Responses(
    hero: Option<HeroRecord>,
    about: Option<AboutRecord>,
    projects: Option<seq<ProjectRecord>>,
    certificates: Option<seq<CertificateRecord>>,
    blogs: Option<seq<BlogRecord>>,
    stats: Option<seq<Stat>>)

  /** Either all six responses arrived and parsed, or something threw. */
  datatype ReadOutcome = Fetched(responses: Responses) | Threw

  function ToProject(p: ProjectRecord): Project {
    Project(p.id, p.title, p.short_description, p.technologies.GetOr([]), p.thumbnail_url, p.demo_url, p.github_url)
  }

  function ToCertificate(c: CertificateRecord): Certificate {
    Certificate(c.id, c.title, c.issuer, c.issue_date, c.credential_url)
  }

  function ToBlogPost(b: BlogRecord): BlogPost {
    BlogPost(b.id, b.title, b.excerpt, b.content, b.published_at, "")
  }

  /** The hero section read from the hero row: every field falls back on its
      default when empty, so none is ever empty. */
  function MapHero(h: Option<HeroRecord>): (hero: Hero)
    ensures hero.title != "" && hero.subtitle != "" && hero.imageUrl != "" && hero.ctaText != ""
    ensures hero.id == if h.Some? then Some(h.value.id) else None
  {
    var d := InitialHero;
    match h
    case None => Hero(None, d.title, d.subtitle, d.imageUrl, d.ctaText)
    case Some(r) =>
      Hero(Some(r.id), Or(r.title, d.title), Or(r.subtitle, d.subtitle),
           Or(r.background_image_url, d.imageUrl), Or(r.cta_text, d.ctaText))
  }

  /** The about section read from the about row; the bio is never empty. */
  function MapAbout(a: Option<AboutRecord>): (about: About)
    ensures about.bio != ""
    ensures about.id == if a.Some? then Some(a.value.id) else None
  {
    var d := InitialAbout;
    match a
    case None => About(None, d.bio, d.skills)
    case Some(r) => About(Some(r.id), Or(r.bio, d.bio), r.skills.GetOr(d.skills))
  }

  /** `(rows || []).map(f)` where the default list replaces a missing one. */
  function MapRows<A, B>(rows: Option<seq<A>>, f: A -> B, default: seq<B>): (r: seq<B>)
    ensures rows.None? ==> r == default
    ensures rows.Some? ==> |r| == |rows.value| && forall i :: 0 <= i < |r| ==> r[i] == f(rows.value[i])
  {
    if rows.None? then default else seq(|rows.value|, i requires 0 <= i < |rows.value| => f(rows.value[i]))
  }

  /** The stats list: a missing or empty one is replaced by the default, so
      the list read is never empty. */
  function ReadStats(rows: Option<seq<Stat>>): (r: seq<Stat>)
    ensures |r| > 0
    ensures rows.Some? && |rows.value| > 0 ==> r == rows.value
  {
    if rows.Some? && |rows.value| > 0 then rows.value else InitialStats
  }

  /** `db.get()`: never fails. Every hero field and the about bio is
      non-empty; lists fall back as a whole. */
  function Get(read: ReadOutcome): (d: PortfolioData)
    ensures read.Threw? ==> d == InitialData
    ensures d.hero.title != "" && d.hero.subtitle != "" && d.hero.imageUrl != "" && d.hero.ctaText != ""
    ensures d.about.bio != ""
    ensures |d.stats| > 0
  {
    match read
    case Threw => InitialData
    case Fetched(r) =>
      PortfolioData(
        hero := MapHero(r.hero),
        about := MapAbout(r.about),
        certificates := MapRows(r.certificates, ToCertificate, InitialCertificates),
        projects := MapRows(r.projects, ToProject, InitialProjects),
        blogs := MapRows(r.blogs, ToBlogPost, InitialBlogs),
        contact :=
          if r.hero.Some? && r.hero.value.social_links.Some? then r.hero.value.social_links.value
          else InitialContact,
        experience :=
          if r.about.Some? && r.about.value.experience.Some? then r.about.value.experience.value
          else InitialExperience,
        stats := ReadStats(r.stats))
  }

  /** With all six reads failing, `get` returns the default document unchanged. */
  lemma GetWithoutDataIsInitial()
    ensures Get(Fetched(Responses(None, None, None, None, None, None))) == InitialData
  {
  }

  /** Each hero field, and the about bio and skills, falls back on its own:
      a non-empty value read is kept, and only a missing or empty one takes
      the default. Stats fall back when missing or empty. */
  lemma GetFallsBackFieldByField(r: Responses)
    ensures var d := Get(Fetched(r));
            && d.hero.title == (if r.hero.Some? && r.hero.value.title != "" then r.hero.value.title else InitialHero.title)
            && d.hero.subtitle ==
               (if r.hero.Some? && r.hero.value.subtitle != "" then r.hero.value.subtitle else InitialHero.subtitle)
            && d.hero.imageUrl ==
               (if r.hero.Some? && r.hero.value.background_image_url != "" then r.hero.value.background_image_url
                else InitialHero.imageUrl)
            && d.hero.ctaText ==
               (if r.hero.Some? && r.hero.value.cta_text != "" then r.hero.value.cta_text else InitialHero.ctaText)
            && d.about.bio == (if r.about.Some? && r.about.value.bio != "" then r.about.value.bio else InitialAbout.bio)
            && d.about.skills ==
               (if r.about.Some? && r.about.value.skills.Some? then r.about.value.skills.value else InitialAbout.skills)
            && d.stats == (if r.stats.Some? && r.stats.value != [] then r.stats.value else InitialStats)
  {
  }

  /** Contact is read from the hero row's `social_links`, experience from the
      about row's `experience`, each with the default when absent. */
  lemma DenormalizedSectionsRead(r: Responses)
    ensures Get(Fetched(r)).contact ==
            if r.hero.Some? && r.hero.value.social_links.Some? then r.hero.value.social_links.value
            else InitialContact
    ensures Get(Fetched(r)).experience ==
            if r.about.Some? && r.about.value.experience.Some? then r.about.value.experience.value
            else InitialExperience
  {
  }

  // ---------------------------------------------------------------------
  // Write side: the bodies `update` posts, in the store's field names.
  // An `id` of `None` is `undefined`, which `JSON.stringify` leaves out.

  datatype HeroPayload = HeroPayload(
    id: Option<string>, title: string, subtitle: string, background_image_url: string, cta_text: string,
    social_links: Contact, is_active: bool)

  datatype AboutPayload = AboutPayload(
    id: Option<string>, heading: string, bio: string, skills: seq<string>, experience: seq<Experience>,
    is_active: bool)

  datatype ProjectPayload = ProjectPayload(
    id: Option<string>, title: string, slug: string, short_description: string, technologies: seq<string>,
    thumbnail_url: string, demo_url: string, github_url: string, is_published: bool)

  datatype StatPayload = StatPayload(id: Option<string>, caption: string, value: string)

  datatype CertificatePayload = CertificatePayload(
    id: Option<string>, title: string, issuer: string, issue_date: string, credential_url: string,
    is_published: bool)

  datatype BlogPayload = BlogPayload(
    id: Option<string>, title: string, slug: string, excerpt: string, content: string, published_at: string,
    is_published: bool)

  /** One POST of `update`. */
  datatype Request =
    | HeroWrite(hero: HeroPayload)
    | AboutWrite(about: AboutPayload)
    | ProjectWrite(project: ProjectPayload)
    | StatsWrite(stats: seq<StatPayload>)
    | CertificateWrite(certificate: CertificatePayload)
    | BlogWrite(blog: BlogPayload)

  function Path(r: Request): string {
    match r
    case HeroWrite(_) => "/api/hero"
    case AboutWrite(_) => "/api/about"
    case ProjectWrite(_) => "/api/projects"
    case StatsWrite(_) => "/api/stats"
    case CertificateWrite(_) => "/api/certificates"
    case BlogWrite(_) => "/api/blogs"
  }

  /** The clock readings `update` takes: `Date.now()`, today's date
      (`toISOString().split('T')[0]`) and the full ISO timestamp. Neither
      rendering is ever empty. */
  datatype ClockReading = ClockReading(nowMs: nat, today: string, nowIso: string)
  type Clock = c: ClockReading | c.today != "" && c.nowIso != "" witness ClockReading(0, "1970-01-01", "1970-01-01T00:00:00.000Z")

  /** The id a payload carries: the element's id exactly when it is a store id. */
  predicate SendsIdOf(sent: Option<string>, id: Option<string>) {
    sent == if id.Some? && IsUuid(id.value) then id else None
  }

  function HeroPayloadOf(d: PortfolioData): (p: HeroPayload)
    ensures SendsIdOf(p.id, d.hero.id)
    ensures p.title != "" && p.social_links == d.contact && p.is_active
  {
    HeroPayload(IdIfUuid(d.hero.id), Or(d.hero.title, "Untitled Portfolio"), d.hero.subtitle,
                d.hero.imageUrl, Or(d.hero.ctaText, "View Work"), d.contact, true)
  }

  /** The about heading is taken from the hero title. */
  function AboutPayloadOf(d: PortfolioData): (p: AboutPayload)
    ensures SendsIdOf(p.id, d.about.id)
    ensures p.heading != "" && p.bio != "" && p.experience == d.experience && p.is_active
  {
    AboutPayload(IdIfUuid(d.about.id), Or(d.hero.title, "About Me"), Or(d.about.bio, " No bio provided."),
                 d.about.skills, d.experience, true)
  }

  function ProjectPayloadOf(p: Project, clock: Clock): (r: ProjectPayload)
    ensures SendsIdOf(r.id, Some(p.id))
    ensures r.title != "" && IsSlug(r.slug) && r.is_published
  {
    ProjectPayload(IdIfUuid(Some(p.id)), Or(p.title, "New Project"), SlugFor(p.title, "new-project-", clock.nowMs),
                   Or(p.description, " No description"), p.techStack, p.imageUrl, p.demoUrl, p.repoUrl, true)
  }

  function StatPayloadOf(s: Stat): (r: StatPayload)
    ensures SendsIdOf(r.id, Some(s.id))
    ensures r.caption != "" && r.value != ""
  {
    StatPayload(IdIfUuid(Some(s.id)), Or(s.caption, "Stat"), Or(s.value, "0"))
  }

  function CertificatePayloadOf(c: Certificate, clock: Clock): (r: CertificatePayload)
    ensures SendsIdOf(r.id, Some(c.id))
    ensures r.title != "" && r.issuer != "" && r.issue_date != "" && r.is_published
  {
    CertificatePayload(IdIfUuid(Some(c.id)), Or(c.title, "New Certificate"), Or(c.issuer, "Unknown Issuer"),
                       Or(c.date, clock.today), c.url, true)
  }

  function BlogPayloadOf(b: BlogPost, clock: Clock): (r: BlogPayload)
    ensures SendsIdOf(r.id, Some(b.id))
    ensures r.title != "" && IsSlug(r.slug) && r.content != "" && r.published_at != "" && r.is_published
  {
    BlogPayload(IdIfUuid(Some(b.id)), Or(b.title, "New Post"), SlugFor(b.title, "new-post-", clock.nowMs),
                Or(b.excerpt, " No excerpt"), Or(b.content, "Draft content..."), Or(b.date, clock.nowIso), true)
  }

  // ---------------------------------------------------------------------
  // Write then read: a payload's columns come back under the same names,
  // with the id the store holds for the row.

  function HeroRowOf(p: HeroPayload, id: string): HeroRecord {
    HeroRecord(id, p.title, p.subtitle, p.background_image_url, p.cta_text, Some(p.social_links))
  }

  function ProjectRowOf(p: ProjectPayload, id: string): ProjectRecord {
    ProjectRecord(id, p.title, p.short_description, Some(p.technologies), p.thumbnail_url, p.demo_url, p.github_url)
  }

  function CertificateRowOf(c: CertificatePayload, id: string): CertificateRecord {
    CertificateRecord(id, c.title, c.issuer, c.issue_date, c.credential_url)
  }

  function BlogRowOf(b: BlogPayload, id: string): BlogRecord {
    BlogRecord(id, b.title, b.excerpt, b.content, b.published_at)
  }

  /** The hero written and read back is the hero, under the stored id, when
      none of its fields is empty; the contact comes back with it. */
  lemma HeroRoundTrip(d: PortfolioData, id: string)
    requires d.hero.title != "" && d.hero.subtitle != "" && d.hero.imageUrl != "" && d.hero.ctaText != ""
    ensures MapHero(Some(HeroRowOf(HeroPayloadOf(d), id))) == d.hero.(id := Some(id))
    ensures HeroRowOf(HeroPayloadOf(d), id).social_links == Some(d.contact)
  {
  }

  /** A project written and read back is the project, under the stored id,
      when its title and description are not empty: the renamed columns map
      back onto their fields. */
  lemma ProjectRoundTrip(p: Project, clock: Clock, id: string)
    requires p.title != "" && p.description != ""
    ensures ToProject(ProjectRowOf(ProjectPayloadOf(p, clock), id)) == p.(id := id)
  {
  }

  lemma CertificateRoundTrip(c: Certificate, clock: Clock, id: string)
    requires c.title != "" && c.issuer != "" && c.date != ""
    ensures ToCertificate(CertificateRowOf(CertificatePayloadOf(c, clock), id)) == c.(id := id)
  {
  }

  /** A post comes back without its reading time, which no column keeps. */
  lemma BlogRoundTrip(b: BlogPost, clock: Clock, id: string)
    requires b.title != "" && b.excerpt != "" && b.content != "" && b.date != ""
    ensures ToBlogPost(BlogRowOf(BlogPayloadOf(b, clock), id)) == b.(id := id, readTime := "")
  {
  }

  /** The clock `update` reads while it builds each request: `clock(k)` is
      the reading taken for the request at position `k`. The loops await every
      request before building the next one, so each item has a reading of its
      own. */
  type Clocks = int -> Clock

  /** The project loop, whose first request sits at position `base`. */
  function ProjectWrites(ps: seq<Project>, clock: Clocks, base: int): (r: seq<Request>)
    ensures |r| == |ps|
  {
    seq(|ps|, i requires 0 <= i < |ps| => ProjectWrite(ProjectPayloadOf(ps[i], clock(base + i))))
  }

  function StatsPayload(ss: seq<Stat>): (r: seq<StatPayload>)
    ensures |r| == |ss| && forall i :: 0 <= i < |ss| ==> r[i] == StatPayloadOf(ss[i])
  {
    seq(|ss|, i requires 0 <= i < |ss| => StatPayloadOf(ss[i]))
  }

  function CertificateWrites(cs: seq<Certificate>, clock: Clocks, base: int): (r: seq<Request>)
    ensures |r| == |cs|
  {
    seq(|cs|, i requires 0 <= i < |cs| => CertificateWrite(CertificatePayloadOf(cs[i], clock(base + i))))
  }

  function BlogWrites(bs: seq<BlogPost>, clock: Clocks, base: int): (r: seq<Request>)
    ensures |r| == |bs|
  {
    seq(|bs|, i requires 0 <= i < |bs| => BlogWrite(BlogPayloadOf(bs[i], clock(base + i))))
  }

  /** The order in which `update` sends its requests: hero, about, the
      project loop, one stats request, the certificate loop, the blog loop. */
  function Sections<T>(hero: T, about: T, projects: seq<T>, stats: T, certificates: seq<T>, blogs: seq<T>): (r: seq<T>)
    ensures |r| == 3 + |projects| + |certificates| + |blogs|
    ensures r[0] == hero && r[1] == about && r[2 + |projects|] == stats
  {
    [hero, about] + projects + [stats] + certificates + blogs
  }

  lemma SectionsProject<T>(hero: T, about: T, projects: seq<T>, stats: T, certificates: seq<T>, blogs: seq<T>, i: nat)
    requires i < |projects|
    ensures Sections(hero, about, projects, stats, certificates, blogs)[2 + i] == projects[i]
  {
    assert Sections(hero, about, projects, stats, certificates, blogs) ==
           [hero, about] + projects + ([stats] + certificates + blogs);
  }

  lemma SectionsCertificate<T>(hero: T, about: T, projects: seq<T>, stats: T, certificates: seq<T>, blogs: seq<T>,
                               i: nat, k: nat)
    requires i < |certificates| && k == 3 + |projects| + i
    ensures Sections(hero, about, projects, stats, certificates, blogs)[k] == certificates[i]
  {
    assert Sections(hero, about, projects, stats, certificates, blogs) ==
           ([hero, about] + projects + [stats]) + certificates + blogs;
  }

  lemma SectionsBlog<T>(hero: T, about: T, projects: seq<T>, stats: T, certificates: seq<T>, blogs: seq<T>,
                        i: nat, k: nat)
    requires i < |blogs| && k == 3 + |projects| + |certificates| + i
    ensures Sections(hero, about, projects, stats, certificates, blogs)[k] == blogs[i]
  {
  }

  /** Everything `update` sends, in order: hero, about, each project, one
      stats request, each certificate, each blog post. */
  function Requests(d: PortfolioData, clock: Clocks): (r: seq<Request>)
    ensures |r| == 3 + |d.projects| + |d.certificates| + |d.blogs|
  {
    Sections(HeroWrite(HeroPayloadOf(d)), AboutWrite(AboutPayloadOf(d)), ProjectWrites(d.projects, clock, 2),
             StatsWrite(StatsPayload(d.stats)), CertificateWrites(d.certificates, clock, 3 + |d.projects|),
             BlogWrites(d.blogs, clock, 3 + |d.projects| + |d.certificates|))
  }

  /** Where each element of the document ends up in the request order, built
      with the clock reading of its own position. */
  lemma RequestsLayout(d: PortfolioData, clock: Clocks)
    ensures var r := Requests(d, clock);
      var p, c := |d.projects|, |d.certificates|;
      && r[0] == HeroWrite(HeroPayloadOf(d)) && r[1] == AboutWrite(AboutPayloadOf(d))
      && (forall i :: 0 <= i < p ==> r[2 + i] == ProjectWrite(ProjectPayloadOf(d.projects[i], clock(2 + i))))
      && r[2 + p] == StatsWrite(StatsPayload(d.stats))
      && (forall i :: 0 <= i < c ==>
            r[3 + p + i] == CertificateWrite(CertificatePayloadOf(d.certificates[i], clock(3 + p + i))))
      && (forall i :: 0 <= i < |d.blogs| ==>
            r[3 + p + c + i] == BlogWrite(BlogPayloadOf(d.blogs[i], clock(3 + p + c + i))))
  {
    ProjectsLayout(d, clock);
    CertificatesLayout(d, clock);
    BlogsLayout(d, clock);
  }

  lemma ProjectsLayout(d: PortfolioData, clock: Clocks)
    ensures forall i :: 0 <= i < |d.projects| ==>
              Requests(d, clock)[2 + i] == ProjectWrite(ProjectPayloadOf(d.projects[i], clock(2 + i)))
  {
    forall i | 0 <= i < |d.projects|
      ensures Requests(d, clock)[2 + i] == ProjectWrite(ProjectPayloadOf(d.projects[i], clock(2 + i)))
    {
      ProjectAt(d, clock, i);
    }
  }

  lemma CertificatesLayout(d: PortfolioData, clock: Clocks)
    ensures forall i :: 0 <= i < |d.certificates| ==>
              Requests(d, clock)[3 + |d.projects| + i] ==
              CertificateWrite(CertificatePayloadOf(d.certificates[i], clock(3 + |d.projects| + i)))
  {
    forall i | 0 <= i < |d.certificates|
      ensures Requests(d, clock)[3 + |d.projects| + i] ==
              CertificateWrite(CertificatePayloadOf(d.certificates[i], clock(3 + |d.projects| + i)))
    {
      CertificateAt(d, clock, i, 3 + |d.projects| + i);
    }
  }

  lemma BlogsLayout(d: PortfolioData, clock: Clocks)
    ensures forall i :: 0 <= i < |d.blogs| ==>
              Requests(d, clock)[3 + |d.projects| + |d.certificates| + i] ==
              BlogWrite(BlogPayloadOf(d.blogs[i], clock(3 + |d.projects| + |d.certificates| + i)))
  {
    forall i | 0 <= i < |d.blogs|
      ensures Requests(d, clock)[3 + |d.projects| + |d.certificates| + i] ==
              BlogWrite(BlogPayloadOf(d.blogs[i], clock(3 + |d.projects| + |d.certificates| + i)))
    {
      BlogAt(d, clock, i, 3 + |d.projects| + |d.certificates| + i);
    }
  }

  lemma ProjectAt(d: PortfolioData, clock: Clocks, i: nat)
    requires i < |d.projects|
    ensures Requests(d, clock)[2 + i] == ProjectWrite(ProjectPayloadOf(d.projects[i], clock(2 + i)))
  {
    SectionsProject(HeroWrite(HeroPayloadOf(d)), AboutWrite(AboutPayloadOf(d)), ProjectWrites(d.projects, clock, 2),
                    StatsWrite(StatsPayload(d.stats)), CertificateWrites(d.certificates, clock, 3 + |d.projects|),
                    BlogWrites(d.blogs, clock, 3 + |d.projects| + |d.certificates|), i);
    ProjectWriteAt(d.projects, clock, 2, i, 2 + i);
  }

  lemma ProjectWriteAt(ps: seq<Project>, clock: Clocks, base: int, i: nat, k: int)
    requires i < |ps| && k == base + i
    ensures ProjectWrites(ps, clock, base)[i] == ProjectWrite(ProjectPayloadOf(ps[i], clock(k)))
  {
  }

  lemma CertificateAt(d: PortfolioData, clock: Clocks, i: nat, k: nat)
    requires i < |d.certificates| && k == 3 + |d.projects| + i
    ensures Requests(d, clock)[k] == CertificateWrite(CertificatePayloadOf(d.certificates[i], clock(k)))
  {
    SectionsCertificate(HeroWrite(HeroPayloadOf(d)), AboutWrite(AboutPayloadOf(d)), ProjectWrites(d.projects, clock, 2),
                        StatsWrite(StatsPayload(d.stats)), CertificateWrites(d.certificates, clock, 3 + |d.projects|),
                        BlogWrites(d.blogs, clock, 3 + |d.projects| + |d.certificates|), i, k);
    CertificateWriteAt(d.certificates, clock, 3 + |d.projects|, i, k);
  }

  lemma CertificateWriteAt(cs: seq<Certificate>, clock: Clocks, base: int, i: nat, k: int)
    requires i < |cs| && k == base + i
    ensures CertificateWrites(cs, clock, base)[i] == CertificateWrite(CertificatePayloadOf(cs[i], clock(k)))
  {
  }

  lemma BlogAt(d: PortfolioData, clock: Clocks, i: nat, k: nat)
    requires i < |d.blogs| && k == 3 + |d.projects| + |d.certificates| + i
    ensures Requests(d, clock)[k] == BlogWrite(BlogPayloadOf(d.blogs[i], clock(k)))
  {
    BlogSlot(d, clock, 3 + |d.projects| + |d.certificates|, i, k);
    BlogWriteAt(d.blogs, clock, 3 + |d.projects| + |d.certificates|, i, k);
  }

  lemma BlogSlot(d: PortfolioData, clock: Clocks, base: nat, i: nat, k: nat)
    requires i < |d.blogs| && base == 3 + |d.projects| + |d.certificates| && k == base + i
    ensures Requests(d, clock)[k] == BlogWrites(d.blogs, clock, base)[i]
  {
    SectionsBlog(HeroWrite(HeroPayloadOf(d)), AboutWrite(AboutPayloadOf(d)), ProjectWrites(d.projects, clock, 2),
                 StatsWrite(StatsPayload(d.stats)), CertificateWrites(d.certificates, clock, 3 + |d.projects|),
                 BlogWrites(d.blogs, clock, base), i, k);
  }

  lemma BlogWriteAt(bs: seq<BlogPost>, clock: Clocks, base: int, i: nat, k: int)
    requires i < |bs| && k == base + i
    ensures BlogWrites(bs, clock, base)[i] == BlogWrite(BlogPayloadOf(bs[i], clock(k)))
  {
  }

  /** Two untitled projects are sent with placeholder slugs that differ
      exactly when the clock readings taken for them differ, so the slug
      upsert of the projects handler keeps both rows apart unless the two
      readings fall in the same millisecond (`RequestsLayout` says which
      reading each position of an update gets). */
  lemma UntitledProjectsSlugs(p: Project, q: Project, cp: Clock, cq: Clock)
    requires p.title == "" && q.title == ""
    ensures ProjectPayloadOf(p, cp).slug == "new-project-" + NatToString(cp.nowMs)
    ensures ProjectPayloadOf(p, cp).slug == ProjectPayloadOf(q, cq).slug <==> cp.nowMs == cq.nowMs
  {
    PlaceholderProjectSlug(cp.nowMs);
    PlaceholderProjectSlug(cq.nowMs);
    PlaceholderDigits("new-project-", cp.nowMs, cq.nowMs);
  }

  /** The same for two untitled blog posts. */
  lemma UntitledPostsSlugs(b: BlogPost, e: BlogPost, cb: Clock, ce: Clock)
    requires b.title == "" && e.title == ""
    ensures BlogPayloadOf(b, cb).slug == "new-post-" + NatToString(cb.nowMs)
    ensures BlogPayloadOf(b, cb).slug == BlogPayloadOf(e, ce).slug <==> cb.nowMs == ce.nowMs
  {
    PlaceholderPostSlug(cb.nowMs);
    PlaceholderPostSlug(ce.nowMs);
    PlaceholderDigits("new-post-", cb.nowMs, ce.nowMs);
  }

  lemma PlaceholderProjectSlug(now: nat)
    ensures SlugFor("", "new-project-", now) == "new-project-" + NatToString(now)
  {
    var stem := "new-project";
    assert IsSlug(stem) by {
      forall i: nat | i + 1 < |stem| ensures !DashPairAt(stem, i) {
        assert stem[i + 1] != '-' || stem[i] != '-';
      }
    }
    assert ("new-project-")[..|stem|] == stem;
    UntitledSlug("new-project-", now);
  }

  lemma PlaceholderPostSlug(now: nat)
    ensures SlugFor("", "new-post-", now) == "new-post-" + NatToString(now)
  {
    var stem := "new-post";
    assert IsSlug(stem) by {
      forall i: nat | i + 1 < |stem| ensures !DashPairAt(stem, i) {
        assert stem[i + 1] != '-' || stem[i] != '-';
      }
    }
    assert ("new-post-")[..|stem|] == stem;
    UntitledSlug("new-post-", now);
  }

  /** A placeholder names its timestamp: two of them are equal exactly when
      the timestamps are. */
  lemma PlaceholderDigits(fallback: string, m: nat, n: nat)
    ensures fallback + NatToString(m) == fallback + NatToString(n) <==> m == n
  {
    if fallback + NatToString(m) == fallback + NatToString(n) {
      assert NatToString(m) == (fallback + NatToString(m))[|fallback|..];
      NatToStringInjective(m, n);
    }
  }

  /** Requests laid out section by section. */
  ghost predicate Layout<T>(reqs: seq<T>, hero: T, about: T, projects: seq<T>, stats: T,
                            certificates: seq<T>, blogs: seq<T>)
  {
    var p, c := |projects|, |certificates|;
    && |reqs| == 3 + p + c + |blogs|
    && reqs[0] == hero && reqs[1] == about
    && reqs[2..2 + p] == projects
    && reqs[2 + p] == stats
    && reqs[3 + p..3 + p + c] == certificates
    && reqs[3 + p + c..] == blogs
  }

  lemma SectionsLayout<T>(hero: T, about: T, projects: seq<T>, stats: T, certificates: seq<T>, blogs: seq<T>)
    ensures Layout(Sections(hero, about, projects, stats, certificates, blogs),
                   hero, about, projects, stats, certificates, blogs)
  {
    var r := Sections(hero, about, projects, stats, certificates, blogs);
    var p, c := |projects|, |certificates|;
    assert r[2..2 + p] == projects by {
      assert r == [hero, about] + projects + ([stats] + certificates + blogs);
    }
    assert r[3 + p..3 + p + c] == certificates by {
      assert r == ([hero, about] + projects + [stats]) + certificates + blogs;
    }
  }

  /** How a write request went: `fetch` resolved with a response, or it
      rejected (a network error), which `update` rethrows. */
  datatype Answer = Answered(ok: bool, status: int) | Rejected(error: string)

  /** Index of the first rejected request among those from `i` to `n`, or `n`. */
  function FirstRejected(respond: nat -> Answer, i: nat, n: nat): (k: nat)
    requires i <= n
    ensures i <= k <= n
    ensures forall j :: i <= j < k ==> !respond(j).Rejected?
    ensures k < n ==> respond(k).Rejected?
    decreases n - i
  {
    if i == n || respond(i).Rejected? then i else FirstRejected(respond, i + 1, n)
  }

  /** How many requests `update` sends: all of them, or up to and including
      the first rejected one. */
  function SentCount(reqs: seq<Request>, respond: nat -> Answer): (n: nat)
    ensures n <= |reqs|
  {
    var k := FirstRejected(respond, 0, |reqs|);
    if k < |reqs| then k + 1 else k
  }

  /** What `update` resolves or rejects with. */
  function Outcome(reqs: seq<Request>, respond: nat -> Answer): Result<(), string> {
    var k := FirstRejected(respond, 0, |reqs|);
    if k < |reqs| then Err(respond(k).error) else Ok(())
  }

  /** A rejection of request `k`, after none before it, ends the run there
      with that rejection's error. */
  lemma RejectionStops(reqs: seq<Request>, respond: nat -> Answer, k: nat)
    requires k < |reqs| && respond(k).Rejected?
    requires forall j :: 0 <= j < k ==> !respond(j).Rejected?
    ensures SentCount(reqs, respond) == k + 1
    ensures Outcome(reqs, respond) == Err(respond(k).error)
  {
    FirstRejectedIs(respond, |reqs|, k);
  }

  /** Non-ok responses never stop the run: without a rejection every request
      is sent and the update succeeds; and conversely. */
  lemma {:induction false} OnlyRejectionStops(reqs: seq<Request>, respond: nat -> Answer)
    ensures Outcome(reqs, respond).Ok? <==> forall j :: 0 <= j < |reqs| ==> !respond(j).Rejected?
    ensures Outcome(reqs, respond).Ok? ==> SentCount(reqs, respond) == |reqs|
  {
    if forall j :: 0 <= j < |reqs| ==> !respond(j).Rejected? {
      NoneRejected(respond, |reqs|);
    }
  }

  lemma FirstRejectedIs(respond: nat -> Answer, n: nat, k: nat)
    requires k < n && respond(k).Rejected?
    requires forall j :: 0 <= j < k ==> !respond(j).Rejected?
    ensures FirstRejected(respond, 0, n) == k
  {
  }

  lemma NoneRejected(respond: nat -> Answer, n: nat)
    requires forall j :: 0 <= j < n ==> !respond(j).Rejected?
    ensures FirstRejected(respond, 0, n) == n
  {
  }

  /** The requests among the first `n` whose response was not ok: the ones
      `update` reports on the console. */
  function NotOk(reqs: seq<Request>, respond: nat -> Answer, n: nat): seq<Request>
    requires n <= |reqs|
  {
    if n == 0 then []
    else NotOk(reqs, respond, n - 1) +
         (if respond(n - 1).Answered? && !respond(n - 1).ok then [reqs[n - 1]] else [])
  }

  /** `sent` and `logged` hold what the first `n` requests of `reqs` added to
      `sent0` and `logged0`, and none of those requests was rejected. */
  ghost predicate SentPrefix(sent: seq<Request>, logged: seq<Request>, sent0: seq<Request>, logged0: seq<Request>,
                             reqs: seq<Request>, respond: nat -> Answer, n: nat)
  {
    && n <= |reqs|
    && sent == sent0 + reqs[..n]
    && logged == logged0 + NotOk(reqs, respond, n)
    && forall j :: 0 <= j < n ==> !respond(j).Rejected?
  }

  /** `sent` and `logged` hold what a whole run of `reqs` added. */
  ghost predicate SentAll(sent: seq<Request>, logged: seq<Request>, sent0: seq<Request>, logged0: seq<Request>,
                          reqs: seq<Request>, respond: nat -> Answer)
  {
    && sent == sent0 + reqs[..SentCount(reqs, respond)]
    && logged == logged0 + NotOk(reqs, respond, SentCount(reqs, respond))
  }

  lemma AllSent(sent: seq<Request>, logged: seq<Request>, sent0: seq<Request>, logged0: seq<Request>,
                reqs: seq<Request>, respond: nat -> Answer)
    requires SentPrefix(sent, logged, sent0, logged0, reqs, respond, |reqs|)
    ensures SentAll(sent, logged, sent0, logged0, reqs, respond) && Outcome(reqs, respond) == Ok(())
  {
    NoneRejected(respond, |reqs|);
  }

  /** The sending side of the client: every request posted, and the ones
      whose failure status was logged. */
  class ApiClient {
    var sent: seq<Request>
    var logged: seq<Request>

    constructor ()
      ensures sent == [] && logged == []
    {
      sent, logged := [], [];
    }

    /** `db.reset()` of the client: it sends nothing and answers with the
        default document; the backing store keeps what it holds. */
    method Reset() returns (d: PortfolioData)
      ensures d == InitialData
    {
      d := InitialData;
    }

    /** One awaited `fetchWithAuth` POST; a non-ok response is only logged. */
    method Post(r: Request, answer: Answer)
      modifies this
      ensures sent == old(sent) + [r]
      ensures logged == old(logged) + (if answer.Answered? && !answer.ok then [r] else [])
    {
      sent := sent + [r];
      if answer.Answered? && !answer.ok {
        logged := logged + [r];
      }
    }

    /** Posts `r`, the next request of `reqs`, and stops at a rejection. */
    method Step(r: Request, respond: nat -> Answer, n: nat,
                ghost reqs: seq<Request>, ghost sent0: seq<Request>, ghost logged0: seq<Request>)
      returns (rejected: Option<string>)
      requires SentPrefix(sent, logged, sent0, logged0, reqs, respond, n) && n < |reqs| && reqs[n] == r
      modifies this
      ensures rejected.None? ==> SentPrefix(sent, logged, sent0, logged0, reqs, respond, n + 1)
      ensures rejected.Some? ==> SentAll(sent, logged, sent0, logged0, reqs, respond)
                                 && Outcome(reqs, respond) == Err(rejected.value)
    {
      Post(r, respond(n));
      assert reqs[..n + 1] == reqs[..n] + [r];
      if respond(n).Rejected? {
        RejectionStops(reqs, respond, n);
        rejected := Some(respond(n).error);
      } else {
        rejected := None;
      }
    }

    /** One section loop of `update` (`for (const p of data.projects)` and the
        like): posts `writes`, the requests of `reqs` from the `base`-th on,
        and stops at a rejection. */
    method PostEach(writes: seq<Request>, respond: nat -> Answer, base: nat,
                    ghost reqs: seq<Request>, ghost sent0: seq<Request>, ghost logged0: seq<Request>)
      returns (rejected: Option<string>)
      requires SentPrefix(sent, logged, sent0, logged0, reqs, respond, base) && base + |writes| <= |reqs|
      requires reqs[base..base + |writes|] == writes
      modifies this
      ensures rejected.None? ==> SentPrefix(sent, logged, sent0, logged0, reqs, respond, base + |writes|)
      ensures rejected.Some? ==> SentAll(sent, logged, sent0, logged0, reqs, respond)
                                 && Outcome(reqs, respond) == Err(rejected.value)
    {
      for i := 0 to |writes|
        invariant SentPrefix(sent, logged, sent0, logged0, reqs, respond, base + i)
      {
        assert reqs[base + i] == writes[i];
        rejected := Step(writes[i], respond, base + i, reqs, sent0, logged0);
        if rejected.Some? {
          return;
        }
      }
      return None;
    }

    /** `db.update(data)`: posts the requests of `Requests(data, clock)` one
        after the other, the i-th answered by `respond(i)`. A non-ok answer is
        logged and does not stop the requests that follow; the first rejected
        one ends the update with its error. */
    method Update(data: PortfolioData, clock: Clocks, respond: nat -> Answer) returns (outcome: Result<(), string>)
      modifies this
      ensures var reqs := Requests(data, clock);
              && sent == old(sent) + reqs[..SentCount(reqs, respond)]
              && logged == old(logged) + NotOk(reqs, respond, SentCount(reqs, respond))
              && outcome == Outcome(reqs, respond)
    {
      SectionsLayout(HeroWrite(HeroPayloadOf(data)), AboutWrite(AboutPayloadOf(data)),
                     ProjectWrites(data.projects, clock, 2), StatsWrite(StatsPayload(data.stats)),
                     CertificateWrites(data.certificates, clock, 3 + |data.projects|),
                     BlogWrites(data.blogs, clock, 3 + |data.projects| + |data.certificates|));
      outcome := PostSections(HeroWrite(HeroPayloadOf(data)), AboutWrite(AboutPayloadOf(data)),
                              ProjectWrites(data.projects, clock, 2), StatsWrite(StatsPayload(data.stats)),
                              CertificateWrites(data.certificates, clock, 3 + |data.projects|),
                              BlogWrites(data.blogs, clock, 3 + |data.projects| + |data.certificates|),
                              respond, Requests(data, clock));
    }

    /** The body of `update`: the hero and about writes, the project loop, the
        stats write, the certificate loop and the blog loop, for requests
        `reqs` laid out in that order. */
    method PostSections(hero: Request, about: Request, projects: seq<Request>, stats: Request,
                        certificates: seq<Request>, blogs: seq<Request>,
                        respond: nat -> Answer, ghost reqs: seq<Request>)
      returns (outcome: Result<(), string>)
      requires Layout(reqs, hero, about, projects, stats, certificates, blogs)
      modifies this
      ensures SentAll(sent, logged, old(sent), old(logged), reqs, respond) && outcome == Outcome(reqs, respond)
    {
      ghost var s0, l0 := sent, logged;
      var p, c := |projects|, |certificates|;
      assert SentPrefix(sent, logged, s0, l0, reqs, respond, 0);

      var rejected := PostHead(hero, about, projects, stats, respond, reqs, s0, l0);
      if rejected.Some? {
        return Err(rejected.value);
      }
      rejected := PostEach(certificates, respond, 3 + p, reqs, s0, l0);
      if rejected.Some? {
        return Err(rejected.value);
      }
      rejected := PostEach(blogs, respond, 3 + p + c, reqs, s0, l0);
      if rejected.Some? {
        return Err(rejected.value);
      }
      AllSent(sent, logged, s0, l0, reqs, respond);
      return Ok(());
    }

    /** The first part of `update`: the hero and about writes, the project
        loop and the stats write, the first `3 + |projects|` requests of
        `reqs`. */
    method PostHead(hero: Request, about: Request, projects: seq<Request>, stats: Request,
                    respond: nat -> Answer, ghost reqs: seq<Request>, ghost sent0: seq<Request>, ghost logged0: seq<Request>)
      returns (rejected: Option<string>)
      requires SentPrefix(sent, logged, sent0, logged0, reqs, respond, 0) && 3 + |projects| <= |reqs|
      requires reqs[0] == hero && reqs[1] == about && reqs[2..2 + |projects|] == projects && reqs[2 + |projects|] == stats
      modifies this
      ensures rejected.None? ==> SentPrefix(sent, logged, sent0, logged0, reqs, respond, 3 + |projects|)
      ensures rejected.Some? ==> SentAll(sent, logged, sent0, logged0, reqs, respond)
                                 && Outcome(reqs, respond) == Err(rejected.value)
    {
      rejected := Step(hero, respond, 0, reqs, sent0, logged0);
      if rejected.Some? {
        return;
      }
      rejected := Step(about, respond, 1, reqs, sent0, logged0);
      if rejected.Some? {
        return;
      }
      rejected := PostEach(projects, respond, 2, reqs, sent0, logged0);
      if rejected.Some? {
        return;
      }
      rejected := Step(stats, respond, 2 + |projects|, reqs, sent0, logged0);
    }
  }
}
