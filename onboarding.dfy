/** The onboarding pager (`OnboardingView`): four pages, and one button that
    moves to the next page or, on the last one, starts the simulated login. */
module Onboarding {
  import Session

  /** One page: an SF Symbol, a title and a description. */
  datatype Page = Page(image: string, title: string, description: string)

  /** The four pages, tagged 0 to 3 in this order. */
  const Pages: seq<Page> := [
    Page("figure.walk", "Bienestar Físico",
      "Rutinas de ejercicio adaptadas a distintos niveles de movilidad."),
    Page("brain", "Estimulación Cognitiva",
      "Juegos de memoria y razonamiento lógico para mantener la mente activa."),
    Page("pill", "Gestión de Salud",
      "Recordatorios para medicamentos y citas médicas."),
    Page("waveform", "Asistente Inteligente",
      "Sistema de acompañamiento activado por voz o botón.")]

  const LastPage: int := 3

  /** There is one page per tag 0..3, and their symbols differ. */
  lemma PagesTagged()
    ensures |Pages| == LastPage + 1
    ensures forall i, j :: 0 <= i < j < |Pages| ==> Pages[i].image != Pages[j].image
  {
    assert |Pages[0].image| == 11 && |Pages[1].image| == 5;
    assert |Pages[2].image| == 4 && |Pages[3].image| == 8;
  }

  /** The button's caption: "Siguiente" before the last page, "Comenzar" on it. */
  function ButtonLabel(selectedPage: int): (caption: string)
    ensures selectedPage < LastPage ==> caption == "Siguiente"
    ensures selectedPage >= LastPage ==> caption == "Comenzar"
  {
    if selectedPage < LastPage then "Siguiente" else "Comenzar"
  }

  /** The two captions differ, so the caption tells whether the next tap
      starts the login. */
  lemma ButtonLabelTellsLastPage(p: int, q: int)
    ensures ButtonLabel(p) == ButtonLabel(q) <==> (p < LastPage <==> q < LastPage)
  {
    assert |ButtonLabel(0)| == 9 && |ButtonLabel(LastPage)| == 8;
  }

  class Pager {
    /** The shared state whose `loadUserData` the last page starts. */
    const app: Session.AppState
    var selectedPage: int

    ghost predicate Valid()
      reads this
    {
      0 <= selectedPage <= LastPage
    }

    /** The pager opens on the first page. */
    constructor (app: Session.AppState)
      ensures Valid() && this.app == app && selectedPage == 0
    {
      this.app := app;
      selectedPage := 0;
    }

    /** A swipe selects any page directly. */
    method Swipe(page: int)
      requires 0 <= page <= LastPage
      modifies this`selectedPage
      ensures Valid() && selectedPage == page
    {
      selectedPage := page;
    }

    /** The button: the next page before the last one, otherwise
        `loadUserData()`, which leaves the page where it is. */
    method Tap()
      requires Valid() && app.Valid()
      modifies this`selectedPage, app`pendingLoads
      ensures Valid() && app.Valid()
      ensures old(selectedPage) < LastPage ==>
        selectedPage == old(selectedPage) + 1 && app.pendingLoads == old(app.pendingLoads)
      ensures old(selectedPage) == LastPage ==>
        selectedPage == LastPage && app.pendingLoads == old(app.pendingLoads) + 1
    {
      if selectedPage < LastPage {
        selectedPage := selectedPage + 1;
      } else {
        app.LoadUserData();
      }
    }
  }

  /** Tapping the button from any page until the login starts takes one tap
      per remaining page plus one, and schedules exactly one login. */
  method TapThrough(pager: Pager) returns (taps: nat)
    requires pager.Valid() && pager.app.Valid()
    modifies pager`selectedPage, pager.app`pendingLoads
    ensures pager.Valid() && pager.app.Valid() && pager.selectedPage == LastPage
    ensures taps == LastPage - old(pager.selectedPage) + 1
    ensures pager.app.pendingLoads == old(pager.app.pendingLoads) + 1
  {
    taps := 0;
    while pager.selectedPage < LastPage
      invariant pager.Valid() && pager.app.Valid()
      invariant taps == pager.selectedPage - old(pager.selectedPage)
      invariant pager.app.pendingLoads == old(pager.app.pendingLoads)
      decreases LastPage - pager.selectedPage
    {
      pager.Tap();
      taps := taps + 1;
    }
    pager.Tap();
    taps := taps + 1;
  }
}
