/** The restaurant's menu (constants.ts:4-11), transcribed as data with
    prices in cents. */
module Menu {
  import opened Types

  const MENU: seq<MenuItem> := [
    MenuItem("p1", "Butter Croissant", 450,
      "Flaky, buttery French pastry.", Pastries,
      "https://images.unsplash.com/photo-1555507036-ab1f4038808a?auto=format&fit=crop&q=80&w=400"),
    MenuItem("p2", "Chocolate Pain au Chocolat", 550,
      "Classic croissant with dark chocolate filling.", Pastries,
      "https://images.unsplash.com/photo-1530610476181-d83430b64dcd?auto=format&fit=crop&q=80&w=400"),
    MenuItem("m1", "Jollof Rice Special", 1800,
      "Spiced West African rice served with grilled chicken and plantain.", MainCourse,
      "https://images.unsplash.com/photo-1632761833005-01e40a027376?auto=format&fit=crop&q=80&w=400"),
    MenuItem("m2", "FEEmhaN Burger", 2200,
      "Wagyu beef patty, truffle mayo, and aged cheddar.", MainCourse,
      "https://images.unsplash.com/photo-1568901346375-23c9450c58cd?auto=format&fit=crop&q=80&w=400"),
    MenuItem("d1", "Hibiscus Iced Tea", 600,
      "Refreshing zobo-style chilled tea.", Drinks,
      "https://images.unsplash.com/photo-1556679343-c7306c1976bc?auto=format&fit=crop&q=80&w=400"),
    MenuItem("ds1", "Tiramisu Pastry", 900,
      "Coffee-soaked sponge with mascarpone cream.", Desserts,
      "https://images.unsplash.com/photo-1571877227200-a0d98ea607e9?auto=format&fit=crop&q=80&w=400")
  ]

  /** Every menu entry has a non-empty id, name and a positive price, and ids
      are distinct; so a found entry's id and name are never replaced by the
      fallbacks of the `||` operator when an order item is resolved. */
  lemma MenuWellFormed()
    ensures |MENU| == 6
    ensures forall i :: 0 <= i < |MENU| ==> MENU[i].id != "" && MENU[i].name != "" && MENU[i].price > 0
    ensures forall i, j :: 0 <= i < j < |MENU| ==> MENU[i].id != MENU[j].id
  {
  }
}
