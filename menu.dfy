/** The mobile navigation toggle `toggleMenu`. */
module Menu {

  const Show := "show"

  /** The `.nav-links` element, seen through its class list. */
  class NavLinks {
    var classes: set<string>

    constructor (classes: set<string>)
      ensures this.classes == classes
    {
      this.classes := classes;
    }
  }

  /** `classList.toggle(token)` as a value: the token's presence flips and no
      other class changes. */
  function Toggled(classes: set<string>, token: string): (r: set<string>)
    ensures token in r <==> token !in classes
    ensures r - {token} == classes - {token}
  {
    if token in classes then classes - {token} else classes + {token}
  }

  /** Toggling the same token twice gives back the original class list. */
  lemma ToggleTwiceRestores(classes: set<string>, token: string)
    ensures Toggled(Toggled(classes, token), token) == classes
  {
    var once := Toggled(classes, token);
    var twice := Toggled(once, token);
    assert twice - {token} == classes - {token};
    assert token in twice <==> token in classes;
  }

  /** `toggleMenu()`: flip the `show` class of the navigation links. */
  method ToggleMenu(navLinks: NavLinks)
    modifies navLinks
    ensures navLinks.classes == Toggled(old(navLinks.classes), Show)
  {
    if Show in navLinks.classes {
      navLinks.classes := navLinks.classes - {Show};
    } else {
      navLinks.classes := navLinks.classes + {Show};
    }
  }

  /** Opening and closing the menu leaves the navigation links as they were. */
  method ToggleMenuTwice(navLinks: NavLinks)
    modifies navLinks
    ensures navLinks.classes == old(navLinks.classes)
  {
    ToggleMenu(navLinks);
    ToggleMenu(navLinks);
    ToggleTwiceRestores(old(navLinks.classes), Show);
  }
}
