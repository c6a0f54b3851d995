/** The home page of src/pages/Index.tsx: thirteen navigation cards, each naming the roles
    that may see it, filtered by the current role. Icons, colours and descriptions are
    presentation and are left out. */
module Index {
  import opened Lists

  datatype Card = Card(title: string, link: string, roles: seq<string>)

  const AllRoles: seq<string> := ["admin", "clerk"]
  const AdminOnly: seq<string> := ["admin"]

  /** `cardData`, in its order. */
  const CardData: seq<Card> := [
    Card("New Farm", "/new-farm", AllRoles),
    Card("New Agent", "/new-agent", AllRoles),
    Card("New Voucher", "/new-voucher", AllRoles),
    Card("New Bill", "/new-bill", AllRoles),
    Card("Voucher List", "/voucher-list", AllRoles),
    Card("Sales List", "/sale-bill-list", AllRoles),
    Card("Farmer Ledgers", "/farm-list", AllRoles),
    Card("Agent Ledgers", "/agent-list", AllRoles),
    Card("Farm List", "/farm-list", AllRoles),
    Card("Agent List", "/agent-list", AllRoles),
    Card("Reports", "/reports", AllRoles),
    Card("Settings", "/settings", AdminOnly),
    Card("Backup & Reset", "/backup-reset", AdminOnly)
  ]

  /** The page's stand-in for the logged-in user's role. */
  const CurrentUserRole := "admin"

  /** `card.role.includes(role)`. */
  function VisibleTo(role: string): Card -> bool
  {
    (c: Card) => role in c.roles
  }

  /** `cardData.filter(card => card.role.includes(role))`: only cards for that role, and
      every such card. */
  function FilteredCards(role: string): (r: seq<Card>)
    ensures |r| <= |CardData|
    ensures forall i :: 0 <= i < |r| ==> r[i] in CardData && role in r[i].roles
    ensures forall i :: 0 <= i < |CardData| && role in CardData[i].roles ==> CardData[i] in r
  {
    Filter(CardData, VisibleTo(role))
  }

  /** The last two cards, Settings and Backup & Reset, are the admin-only ones; the first
      eleven are for admin and clerk alike. */
  lemma CardRoles()
    ensures |CardData| == 13
    ensures CardData[11].title == "Settings" && CardData[12].title == "Backup & Reset"
    ensures forall i :: 11 <= i < 13 ==> CardData[i].roles == ["admin"]
    ensures forall i :: 0 <= i < 11 ==> CardData[i].roles == ["admin", "clerk"]
  {
  }

  /** Every card is for admin and clerk, or for admin alone. */
  lemma CardsHaveTwoRoleLists()
    ensures forall i :: 0 <= i < |CardData| ==> CardData[i].roles == AllRoles || CardData[i].roles == AdminOnly
  {
    CardRoles();
  }

  /** An admin sees all thirteen cards, in order. */
  lemma AdminSeesEveryCard()
    ensures FilteredCards("admin") == CardData
  {
    FilterAll(CardData, VisibleTo("admin"));
  }

  /** A clerk sees the first eleven cards, in order, and neither admin-only card. */
  lemma ClerkSeesElevenCards()
    ensures FilteredCards("clerk") == CardData[..11]
  {
    var p := VisibleTo("clerk");
    var front, back := CardData[..11], CardData[11..];
    CardRoles();
    assert forall i :: 0 <= i < |front| ==> p(front[i]) by {
      forall i | 0 <= i < |front| ensures p(front[i]) {
        assert front[i] == CardData[i];
      }
    }
    assert forall i :: 0 <= i < |back| ==> !p(back[i]) by {
      forall i | 0 <= i < |back| ensures !p(back[i]) {
        assert back[i] == CardData[11 + i];
      }
    }
    assert CardData == front + back;
    FilterAppend(front, back, p);
    FilterAll(front, p);
    FilterNone(back, p);
  }

  /** Any other role, `writer` among them, sees no card at all. */
  lemma OtherRolesSeeNothing(role: string)
    requires role != "admin" && role != "clerk"
    ensures FilteredCards(role) == []
  {
    CardsHaveTwoRoleLists();
    FilterNone(CardData, VisibleTo(role));
  }

  /** With the role fixed to admin the page shows every card. */
  lemma ShownCardsAreAll()
    ensures FilteredCards(CurrentUserRole) == CardData && |FilteredCards(CurrentUserRole)| == 13
  {
    AdminSeesEveryCard();
  }
}
