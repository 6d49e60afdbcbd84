/** The in-memory portfolio document the admin editors work on (the
    interfaces of types.ts) and the default document both data services
    start from. The hero and about sections also carry the backing-store id
    that the client sync layer captures when it reads them. */
module PortfolioTypes {
  import opened Wrappers

  datatype Hero = Hero(id: Option<string>, title: string, subtitle: string, imageUrl: string, ctaText: string)

  datatype About = About(id: Option<string>, bio: string, skills: seq<string>)

  datatype Certificate = Certificate(id: string, title: string, issuer: string, date: string, url: string)

  datatype Project = Project(
    id: string, title: string, description: string, techStack: seq<string>,
    imageUrl: string, demoUrl: string, repoUrl: string)

  datatype BlogPost = BlogPost(
    id: string, title: string, excerpt: string, content: string, date: string, readTime: string)

  datatype Contact = Contact(email: string, github: string, linkedin: string, twitter: string)

  datatype Experience = Experience(id: string, role: string, company: string, year: string, description: string)

  // `label` is a Dafny keyword, so the label of a stat is called `caption` here.
  datatype Stat = Stat(id: string, caption: string, value: string)

  datatype PortfolioData = PortfolioData(
    hero: Hero,
    about: About,
    certificates: seq<Certificate>,
    projects: seq<Project>,
    blogs: seq<BlogPost>,
    contact: Contact,
    experience: seq<Experience>,
    stats: seq<Stat>)

  // INITIAL_DATA, section by section.

  const InitialHero: Hero := Hero(
    None,
    "Building the Future of Web",
    "Senior Full-Stack Engineer specializing in scalable React applications and AI integration.",
    "https://picsum.photos/400/400",
    "View My Work")

  const InitialAbout: About := About(
    None,
    "I am a passionate developer with over 5 years of experience in building modern web applications. I love solving complex problems and creating intuitive user experiences. My expertise spans across the entire JavaScript ecosystem.",
    ["React", "TypeScript", "Node.js", "Next.js", "Tailwind", "PostgreSQL", "AWS", "Docker"])

  const InitialCertificates: seq<Certificate> := [
    Certificate("1", "AWS Certified Solutions Architect", "Amazon Web Services", "2023-08", "#"),
    Certificate("2", "Meta Frontend Developer Professional", "Meta", "2023-01", "#")]

  const InitialProjects: seq<Project> := [
    Project("1", "E-Commerce Dashboard",
      "A comprehensive analytics dashboard for online retailers featuring real-time data visualization.",
      ["React", "D3.js", "Supabase"], "https://picsum.photos/600/400?random=1", "#", "#"),
    Project("2", "AI Content Generator",
      "SaaS application leveraging Gemini API to help writers generate creative content blocks.",
      ["Next.js", "Gemini API", "Stripe"], "https://picsum.photos/600/400?random=2", "#", "#"),
    Project("3", "Task Master",
      "Collaborative project management tool with real-time updates and team workspaces.",
      ["Vue.js", "Firebase", "Pinia"], "https://picsum.photos/600/400?random=3", "#", "#")]

  const InitialBlogs: seq<BlogPost> := [
    BlogPost("1", "The Future of React Server Components",
      "Exploring how RSCs are changing the way we build performant web applications.",
      "Full content would go here...", "2023-10-15", "5 min read"),
    BlogPost("2", "Mastering Tailwind CSS",
      "Tips and tricks to speed up your styling workflow without sacrificing maintainability.",
      "Full content would go here...", "2023-09-22", "8 min read")]

  const InitialContact: Contact :=
    Contact("dev@example.com", "github.com/developer", "linkedin.com/in/developer", "twitter.com/dev_guru")

  const InitialExperience: seq<Experience> := [
    Experience("1", "Senior Frontend Engineer", "TechCorp Inc.", "2022 - Present",
      "Leading a team of 5 developers building scalable React applications."),
    Experience("2", "Full Stack Developer", "Creative Solutions", "2020 - 2022",
      "Developed end-to-end e-commerce solutions using Next.js and Supabase."),
    Experience("3", "Web Developer", "Digital Agency", "2018 - 2020",
      "Crafted pixel-perfect UIs for various high-profile clients.")]

  const InitialStats: seq<Stat> := [
    Stat("1", "Years Experience", "5+"),
    Stat("2", "Projects Completed", "50+"),
    Stat("3", "Satisfied Clients", "100%"),
    Stat("4", "Commit Count", "5k+")]

  /** INITIAL_DATA, the document shown before anything is loaded and
      whenever loading fails. */
  const InitialData: PortfolioData :=
    PortfolioData(InitialHero, InitialAbout, InitialCertificates, InitialProjects, InitialBlogs,
                  InitialContact, InitialExperience, InitialStats)
}
