/** MenuPage: the side menu's notion of the active page and its title, kept
    in step with the router's URL. */
module Menu {
  import opened Common
  import opened Storage
  import Theme

  datatype Page = Home | Intro

  /** The title shown for each page. */
  function TitleOf(p: Page): string {
    match p
    case Home => "Inicio"
    case Intro => "Introducción"
  }

  /** The page `updateCurrentPage(url)` settles on from the current one:
      '/menu/home' wins, then '/intro'; any other URL keeps the current page. */
  function PageFor(url: string, current: Page): (p: Page)
    ensures Includes(url, "/menu/home") ==> p == Home
    ensures !Includes(url, "/menu/home") && Includes(url, "/intro") ==> p == Intro
    ensures !Includes(url, "/menu/home") && !Includes(url, "/intro") ==> p == current
  {
    if Includes(url, "/menu/home") then Home
    else if Includes(url, "/intro") then Intro
    else current
  }

  /** The title identifies the page. */
  lemma TitleDeterminesPage(p: Page, q: Page)
    ensures TitleOf(p) == TitleOf(q) ==> p == q
  {
    assert |TitleOf(Home)| != |TitleOf(Intro)|;
  }

  /** A URL is always recognised when it is exactly the route. */
  lemma RoutesRecognised()
    ensures PageFor("/menu/home", Intro) == Home
    ensures PageFor("/intro", Home) == Intro
  {
    assert OccursAt("/menu/home", "/menu/home", 0);
    assert OccursAt("/intro", "/intro", 0);
    assert !Includes("/intro", "/menu/home");
  }

  class MenuPage {
    var currentPage: Page
    var pageTitle: string
    const theme: Theme.ThemeService

    /** The title always belongs to the active page. */
    predicate Valid()
      reads this
    {
      pageTitle == TitleOf(currentPage)
    }

    constructor (theme: Theme.ThemeService)
      ensures Valid() && currentPage == Home && pageTitle == "Inicio" && this.theme == theme
    {
      currentPage := Home;
      pageTitle := "Inicio";
      this.theme := theme;
    }

    /** `updateCurrentPage(url)`, run at start and on every `NavigationEnd`. */
    method UpdateCurrentPage(url: string)
      requires Valid()
      modifies this
      ensures Valid()
      ensures currentPage == PageFor(url, old(currentPage))
    {
      if Includes(url, "/menu/home") {
        currentPage := Home;
        pageTitle := "Inicio";
      } else if Includes(url, "/intro") {
        currentPage := Intro;
        pageTitle := "Introducción";
      }
    }

    /** `cambiarTema`: the theme service's toggle. */
    method ChangeTheme()
      requires theme.Valid()
      modifies theme, theme.storage
      ensures theme.Valid() && theme.currentTheme == Theme.NextTheme(old(theme.currentTheme))
      ensures theme.storage.data == old(theme.storage.data)[Theme.ThemeStorageKey := Str(theme.currentTheme)]
    {
      var _ := theme.ToggleTheme();
    }
  }

  /** A URL with both routes in it (say '/intro?next=/menu/home') shows the home page. */
  method HomeTakesPrecedence(m: MenuPage, url: string)
    requires m.Valid() && Includes(url, "/menu/home") && Includes(url, "/intro")
    modifies m
    ensures m.currentPage == Home && m.pageTitle == "Inicio"
  {
    m.UpdateCurrentPage(url);
  }
}
