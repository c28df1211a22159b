/** The static project catalogue of the site and its slug lookup. */
module Catalogue {
  import opened Options

  /** One project record; every field is fixed at build time. */
  datatype Project = Project(
    id: int,
    slug: string,
    title: string,
    category: string,
    year: string,
    image: string,
    externalLink: string,
    headline: string,
    description: string,
    challenge: string,
    solution: string,
    technologies: seq<string>,
    role: string,
    duration: string,
    screenshots: seq<string>)

  /** The bundler-resolved URL of the imported Sceneburn preview asset: a site-relative path. */
  const SceneburnPreview: string := "/assets/projects/sceneburn-preview.png"

  /** The catalogue, in array order. */
  const Projects: seq<Project> :=
    [
      Project(
        1,
        "sceneburn",
        "Sceneburn",
        "Film & TV Tracker",
        "2024",
        SceneburnPreview,
        "https://sceneburn.com/",
        "A modern film and TV tracking experience",
        "Sceneburn is a comprehensive film and television tracking platform that allows users to discover, track, and share their viewing experiences. The platform features a sleek, dark interface with rich media content and social features.",
        "The challenge was to create an engaging platform that could compete with established players while offering a unique, more cinematic experience. Users needed an intuitive way to track their watch history, discover new content, and connect with other film enthusiasts.",
        "We designed a visually immersive interface that puts content first. The dark theme with vibrant accent colors creates a theater-like atmosphere. Smart recommendations and social features keep users engaged, while the clean UI ensures easy navigation through extensive libraries.",
        ["React", "TypeScript", "Next.js", "Tailwind CSS", "PostgreSQL", "TMDB API"],
        "Lead Designer & Frontend Developer",
        "6 months",
        [SceneburnPreview]),
      Project(
        2,
        "apex-finance",
        "Apex Finance",
        "Trading Interface",
        "2023",
        "https://images.unsplash.com/photo-1642543492481-44e81e3914a7?q=80&w=2670&auto=format&fit=crop",
        "#",
        "Professional-grade trading for everyone",
        "Apex Finance is a sophisticated trading platform designed to bring institutional-level tools to retail investors. The interface balances complexity with usability, providing real-time data and advanced charting capabilities.",
        "Retail traders often struggle with overly complex platforms or lack access to professional tools. We needed to bridge this gap by creating an interface that could handle advanced functionality while remaining approachable.",
        "We developed a modular dashboard that adapts to user expertise levels. Beginners see simplified views, while power users can unlock advanced features. Real-time data streaming and customizable workspaces allow traders to optimize their workflow.",
        ["React", "TypeScript", "WebSocket", "D3.js", "Node.js", "Redis"],
        "UI/UX Designer",
        "8 months",
        ["https://images.unsplash.com/photo-1642543492481-44e81e3914a7?q=80&w=2670&auto=format&fit=crop"]),
      Project(
        3,
        "vanguard-capital",
        "Vanguard Capital",
        "Investment Banking",
        "2023",
        "https://images.unsplash.com/photo-1551288049-bebda4e38f71?q=80&w=2670&auto=format&fit=crop",
        "#",
        "Redefining investment management",
        "Vanguard Capital is an investment banking platform that streamlines portfolio management and client communications. The system integrates complex financial data into actionable insights.",
        "Investment banks deal with vast amounts of data across multiple systems. Analysts needed a unified view of portfolios, market data, and client information without switching between applications.",
        "We created a centralized dashboard that aggregates data from multiple sources. Custom visualizations help analysts spot trends quickly, while automated reporting reduces manual work by 60%.",
        ["React", "TypeScript", "Python", "PostgreSQL", "AWS", "Tableau"],
        "Product Designer",
        "10 months",
        ["https://images.unsplash.com/photo-1551288049-bebda4e38f71?q=80&w=2670&auto=format&fit=crop"]),
      Project(
        4,
        "helix-health",
        "Helix Health",
        "Biotech Dashboard",
        "2022",
        "https://images.unsplash.com/photo-1576091160399-112ba8d25d1d?q=80&w=2670&auto=format&fit=crop",
        "#",
        "Data-driven healthcare innovation",
        "Helix Health is a biotech analytics platform that helps researchers visualize complex genomic data and track clinical trial progress. The system democratizes access to cutting-edge research tools.",
        "Genomic research generates massive datasets that are difficult to interpret. Researchers needed intuitive visualizations that could reveal patterns without requiring deep technical expertise.",
        "We designed interactive data visualizations that make complex genomic information accessible. Machine learning models highlight significant findings, while collaboration tools enable global research teams to work together seamlessly.",
        ["React", "TypeScript", "Python", "TensorFlow", "D3.js", "AWS"],
        "UI Designer & Data Visualization",
        "12 months",
        ["https://images.unsplash.com/photo-1576091160399-112ba8d25d1d?q=80&w=2670&auto=format&fit=crop"]),
      Project(
        5,
        "mono-architectural",
        "Mono Architectural",
        "Real Estate",
        "2022",
        "https://images.unsplash.com/photo-1486406146926-c627a92ad1ab?q=80&w=2670&auto=format&fit=crop",
        "#",
        "Architectural visualization reimagined",
        "Mono Architectural is a real estate platform that showcases luxury properties through immersive 3D experiences. The platform combines stunning visuals with practical property management tools.",
        "High-end real estate requires presentation that matches the quality of the properties. Traditional listings fail to capture the essence of luxury spaces and the experience of being there.",
        "We created an immersive viewing experience with 3D walkthroughs, drone footage integration, and interactive floor plans. The minimalist interface ensures the properties remain the focus while providing all necessary information.",
        ["React", "Three.js", "WebGL", "Framer Motion", "Sanity CMS", "Vercel"],
        "Creative Director",
        "4 months",
        ["https://images.unsplash.com/photo-1486406146926-c627a92ad1ab?q=80&w=2670&auto=format&fit=crop"])
    ]

  /** `Array.prototype.find` on the slug: the first record, in array order, whose slug is `slug`. */
  function FindBySlug(ps: seq<Project>, slug: string): (r: Option<Project>)
    ensures r.Some? ==> r.value in ps && r.value.slug == slug
    ensures r.None? <==> forall i :: 0 <= i < |ps| ==> ps[i].slug != slug
  {
    if |ps| == 0 then None
    else if ps[0].slug == slug then Some(ps[0])
    else FindBySlug(ps[1..], slug)
  }

  /** The record at index `i` is the earliest one carrying `slug`. */
  ghost predicate FirstWithSlug(ps: seq<Project>, slug: string, i: int)
  {
    0 <= i < |ps| && ps[i].slug == slug && forall j :: 0 <= j < i ==> ps[j].slug != slug
  }

  /** With duplicate slugs the lookup returns the earliest matching record. */
  lemma {:induction false} FindBySlugReturnsFirst(ps: seq<Project>, slug: string, i: int)
    requires FirstWithSlug(ps, slug, i)
    ensures FindBySlug(ps, slug) == Some(ps[i])
    decreases i
  {
    if i > 0 {
      assert ps[0].slug != slug;
      assert FirstWithSlug(ps[1..], slug, i - 1) by {
        forall j | 0 <= j < i - 1 ensures ps[1..][j].slug != slug {
          assert ps[1..][j] == ps[j + 1];
        }
      }
      FindBySlugReturnsFirst(ps[1..], slug, i - 1);
    }
  }

  /** `getProjectBySlug`: the catalogue lookup. */
  function GetProjectBySlug(slug: string): (r: Option<Project>)
  {
    FindBySlug(Projects, slug)
  }

  /** No two records of a list share a slug. */
  ghost predicate DistinctSlugs(ps: seq<Project>)
  {
    forall i, j :: 0 <= i < j < |ps| ==> ps[i].slug != ps[j].slug
  }

  /** The catalogue holds five records with ids 1..5 in order. */
  lemma CatalogueIds()
    ensures |Projects| == 5
    ensures forall i :: 0 <= i < |Projects| ==> Projects[i].id == i + 1
  {
  }

  /** The catalogue's slugs, in order. */
  lemma CatalogueSlugs()
    ensures |Projects| == 5
    ensures Projects[0].slug == "sceneburn" && Projects[1].slug == "apex-finance"
    ensures Projects[2].slug == "vanguard-capital" && Projects[3].slug == "helix-health"
    ensures Projects[4].slug == "mono-architectural"
  {
  }

  /** No two catalogue records share a slug. */
  lemma CatalogueDistinctSlugs()
    ensures DistinctSlugs(Projects)
  {
    CatalogueSlugs();
    var slugs: seq<string> := ["sceneburn", "apex-finance", "vanguard-capital", "helix-health", "mono-architectural"];
    assert "apex-finance"[0] != "helix-health"[0];
    forall i, j | 0 <= i < j < |Projects| ensures Projects[i].slug != Projects[j].slug {
      assert Projects[i].slug == slugs[i] && Projects[j].slug == slugs[j];
    }
  }

  /** Every record has exactly one screenshot, its image. */
  lemma CatalogueScreenshots()
    ensures forall i :: 0 <= i < |Projects| ==> Projects[i].screenshots == [Projects[i].image]
  {
  }

  /** Only Sceneburn links out; every other record's external link is `#`. */
  lemma CatalogueLinks()
    ensures forall i :: 0 <= i < |Projects| ==>
      (Projects[i].externalLink != "#" <==> Projects[i].slug == "sceneburn")
  {
    assert Projects[0].externalLink[0] != '#';
  }

  /** When slugs are distinct, a lookup finds a record exactly when that record is in the list
      with that slug: the lookup is a function of the slug. */
  lemma FindBySlugExact(ps: seq<Project>, slug: string, p: Project)
    requires DistinctSlugs(ps)
    ensures FindBySlug(ps, slug) == Some(p) <==> p in ps && p.slug == slug
  {
    if p in ps && p.slug == slug {
      var i :| 0 <= i < |ps| && ps[i] == p;
      FindBySlugReturnsFirst(ps, slug, i);
    }
  }

  /** The lookup against the catalogue: `undefined` exactly for slugs no record has,
      and otherwise the one record carrying that slug. */
  lemma GetProjectBySlugSpec(slug: string)
    ensures GetProjectBySlug(slug).None? <==> forall p :: p in Projects ==> p.slug != slug
    ensures forall p :: p in Projects && p.slug == slug ==> GetProjectBySlug(slug) == Some(p)
  {
    CatalogueDistinctSlugs();
    forall p | p in Projects && p.slug == slug ensures GetProjectBySlug(slug) == Some(p) {
      FindBySlugExact(Projects, slug, p);
    }
  }
}
