/** The navigation menu (components/Sidebar.tsx): the items a role sees and
    which of them is highlighted for the current view. */
module Sidebar {
  import opened Types

  /** A menu entry: the view it opens and its title. */
  datatype MenuItem = MenuItem(id: string, title: string)

  /** The entries every role sees, in order. */
  const CommonItems: seq<MenuItem> := [
    MenuItem("dashboard", "Visão Geral"),
    MenuItem("schedule", "Minha Agenda"),
    MenuItem("rooms", "Aluguel de Salas")
  ]

  /** The entries appended for administrators, in order. */
  const AdminItems: seq<MenuItem> := [
    MenuItem("patients", "Pacientes"),
    MenuItem("professionals", "Profissionais"),
    MenuItem("settings", "Configurações")
  ]

  /** `menuItems`: dashboard, schedule and rooms for everyone, then
      patients, professionals and settings for an administrator. */
  function MenuItems(role: UserRole): (r: seq<MenuItem>)
    ensures |r| == if role == Admin then 6 else 3
    ensures r[0].id == "dashboard" && r[1].id == "schedule" && r[2].id == "rooms"
    ensures role == Admin ==> r[3].id == "patients" && r[4].id == "professionals" && r[5].id == "settings"
  {
    if role == Admin then CommonItems + AdminItems else CommonItems
  }

  /** The ids of the menu of a role are pairwise distinct. */
  lemma MenuIdsDistinct(role: UserRole)
    ensures var items := MenuItems(role);
      forall i, j :: 0 <= i < j < |items| ==> items[i].id != items[j].id
  {
  }

  /** An entry is highlighted when its id is the current view. */
  predicate IsActive(item: MenuItem, currentView: string) {
    item.id == currentView
  }

  /** Whatever the current view, at most one entry is highlighted. */
  lemma AtMostOneActive(role: UserRole, currentView: string)
    ensures var items := MenuItems(role);
      forall i, j :: 0 <= i < |items| && 0 <= j < |items| && IsActive(items[i], currentView) && IsActive(items[j], currentView) ==> i == j
  {
    MenuIdsDistinct(role);
  }

  /** Clicking an entry asks for the view named by its id. */
  function ClickTarget(items: seq<MenuItem>, index: nat): (view: string)
    requires index < |items|
    ensures IsActive(items[index], view)
  {
    items[index].id
  }

  /** After clicking an entry of the menu, that entry and no other is highlighted. */
  lemma ClickHighlightsOnlyThatItem(role: UserRole, k: nat)
    requires k < |MenuItems(role)|
    ensures var items := MenuItems(role);
      forall i :: 0 <= i < |items| ==> (IsActive(items[i], ClickTarget(items, k)) <==> i == k)
  {
    MenuIdsDistinct(role);
  }
}
