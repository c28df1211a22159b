/** `Projects`: the home page's list of selected works. Each row links to the project and
    shows its image, with a remote fallback for a local image that fails to load and an
    error card for a remote one. */
module ProjectList {
  import opened Options

  datatype ListedProject = ListedProject(id: nat, title: string, category: string, year: string,
                                         image: string, link: string)

  /** Where every listed image and the fallback are hosted. */
  const Unsplash: string := "https://images.unsplash.com/photo-"

  /** The five rows, in display order. */
  const Listed: seq<ListedProject> := [
    ListedProject(1, "Sceneburn", "Film & TV Tracker", "2024",
      Unsplash + "1536440136628-849c177e76a1?q=80&w=2525&auto=format&fit=crop",
      "https://sceneburn.com/"),
    ListedProject(2, "Apex Finance", "Trading Interface", "2023",
      Unsplash + "1642543492481-44e81e3914a7?q=80&w=2670&auto=format&fit=crop",
      "#"),
    ListedProject(3, "Vanguard Capital", "Investment Banking", "2023",
      Unsplash + "1551288049-bebda4e38f71?q=80&w=2670&auto=format&fit=crop",
      "#"),
    ListedProject(4, "Helix Health", "Biotech Dashboard", "2022",
      Unsplash + "1576091160399-112ba8d25d1d?q=80&w=2670&auto=format&fit=crop",
      "#"),
    ListedProject(5, "Mono Architectural", "Real Estate", "2022",
      Unsplash + "1486406146926-c627a92ad1ab?q=80&w=2670&auto=format&fit=crop",
      "#")
  ]

  /** The image a row switches to when its local image fails. */
  const FallbackImage: string :=
    Unsplash + "1489599849927-2ee91cede3ba?q=80&w=2670&auto=format&fit=crop"

  predicate StartsWith(s: string, prefix: string)
  {
    |prefix| <= |s| && s[..|prefix|] == prefix
  }

  /** Anything that starts with "https" starts with "http". */
  lemma HttpsIsHttp(s: string)
    requires StartsWith(s, "https")
    ensures StartsWith(s, "http")
  {
    assert s[..4] == s[..5][..4];
  }

  /** A photo hosted on Unsplash is remote. */
  lemma UnsplashIsHttps(rest: string)
    ensures StartsWith(Unsplash + rest, "https")
  {
    assert Unsplash[..5] == "https";
    assert (Unsplash + rest)[..5] == Unsplash[..5];
  }

  /** A remote link opens in a new tab, any other in the same one. */
  function LinkTarget(link: string): (r: string)
    ensures r == "_blank" || r == "_self"
    ensures r == "_blank" <==> StartsWith(link, "http")
  {
    if StartsWith(link, "http") then "_blank" else "_self"
  }

  /** Only a remote link carries `rel`, and then it is "noopener noreferrer". */
  function LinkRel(link: string): (r: Option<string>)
    ensures r.Some? <==> StartsWith(link, "http")
    ensures r.Some? ==> r.value == "noopener noreferrer"
  {
    if StartsWith(link, "http") then Some("noopener noreferrer") else None
  }

  /** Every listed image is remote, so only the error-card branch of the image error
      handler can be taken with this data; only the first row links out, in a new tab. */
  lemma ListedRows()
    ensures forall i :: 0 <= i < |Listed| ==> StartsWith(Listed[i].image, "https")
    ensures forall i :: 0 <= i < |Listed| ==> StartsWith(Listed[i].image, "http")
    ensures forall i :: 0 <= i < |Listed| ==> Listed[i].id == i + 1
    ensures LinkTarget(Listed[0].link) == "_blank"
    ensures forall i :: 1 <= i < |Listed| ==> LinkTarget(Listed[i].link) == "_self" && LinkRel(Listed[i].link) == None
  {
    UnsplashIsHttps("1536440136628-849c177e76a1?q=80&w=2525&auto=format&fit=crop");
    UnsplashIsHttps("1642543492481-44e81e3914a7?q=80&w=2670&auto=format&fit=crop");
    UnsplashIsHttps("1551288049-bebda4e38f71?q=80&w=2670&auto=format&fit=crop");
    UnsplashIsHttps("1576091160399-112ba8d25d1d?q=80&w=2670&auto=format&fit=crop");
    UnsplashIsHttps("1486406146926-c627a92ad1ab?q=80&w=2670&auto=format&fit=crop");
    assert Listed[0].link[..4] == "http";
    forall i | 0 <= i < |Listed|
      ensures StartsWith(Listed[i].image, "http")
    {
      HttpsIsHttp(Listed[i].image);
    }
  }

  /** What the middle of a row shows. */
  datatype Media = Image(src: string) | ErrorCard(title: string)

  /** One row and its image state. */
  class ProjectItem {
    const project: ListedProject
    var imgSrc: string
    var hasError: bool

    /** The image is the project's own or the fallback, and the error card only ever comes
        up for a remote image. */
    ghost predicate Valid()
      reads this
    {
      && (imgSrc == project.image || imgSrc == FallbackImage)
      && (hasError ==> StartsWith(project.image, "http"))
    }

    constructor (project: ListedProject)
      ensures Valid() && this.project == project
      ensures imgSrc == project.image && !hasError
    {
      this.project := project;
      imgSrc := project.image;
      hasError := false;
    }

    /** The error card is shown exactly when `hasError`, naming the project; otherwise the
        current image. */
    function Shown(): (m: Media)
      reads this
      ensures m.ErrorCard? <==> hasError
      ensures m.ErrorCard? ==> m.title == project.title
      ensures m.Image? ==> m.src == imgSrc
    {
      if hasError then ErrorCard(project.title) else Image(imgSrc)
    }

    /** The image's error handler. It tests the project's own image, not the one shown: a
        local image switches to the fallback (again on every later error) and never raises
        the error card; a remote one raises the card and keeps its source. */
    method HandleImageError()
      requires Valid()
      modifies this`imgSrc, this`hasError
      ensures Valid()
      ensures !StartsWith(project.image, "http") ==> imgSrc == FallbackImage && hasError == old(hasError) == false
      ensures StartsWith(project.image, "http") ==> hasError && imgSrc == old(imgSrc)
    {
      if !StartsWith(project.image, "http") {
        imgSrc := FallbackImage;
      } else {
        hasError := true;
      }
    }
  }

  /** A local image that keeps failing keeps showing the fallback; the first listed row's
      failed image turns into its error card. */
  method ImageErrors()
  {
    var local := new ProjectItem(ListedProject(9, "Local", "Test", "2024", "/assets/local.png", "#"));
    assert local.project.image[0] != "http"[0];
    local.HandleImageError();
    local.HandleImageError();
    assert local.Shown() == Image(FallbackImage);
    ListedRows();
    var first := new ProjectItem(Listed[0]);
    first.HandleImageError();
    assert first.Shown() == ErrorCard("Sceneburn");
  }
}
