/** The command reference page: a fixed catalogue of the agent's tools,
    the category chips above it, the search box that narrows it, and the
    grouping of what is left by category in a fixed order. */
module Commands {
  import opened Wrappers
  import opened JsText
  import opened SeqMath

  // ---------------------------------------------------------------------
  // The catalogue
  // ---------------------------------------------------------------------

  datatype Category = Banking | Savings | Directory | Payroll | KeyFeatures

  /** The label each category carries on the page. */
  function CategoryName(c: Category): string
  {
    match c
    case Banking => "Banking & Wallet"
    case Savings => "Savings & Investment"
    case Directory => "Employee Directory"
    case Payroll => "Payroll Management"
    case KeyFeatures => "Key Features"
  }

  /** An absent `requiresConfirmation` is false, an absent `notes` is
      `None`. */
  datatype Command = Command(id: string, category: Category, name: string, description: string,
                             requiresConfirmation: bool, notes: Option<string>)

  const ConfirmationNote := "Requires confirmation before execution."

  /** A tool that runs without asking; its id is its name. */
  function Tool(name: string, category: Category, description: string): Command
  {
    Command(name, category, name, description, false, None)
  }

  /** A tool that moves money and asks first. */
  function Guarded(name: string, category: Category, description: string): Command
  {
    Command(name, category, name, description, true, Some(ConfirmationNote))
  }

  /** `COMMANDS`. */
  const Catalogue: seq<Command> := [
    Tool("get_balance", Banking, "Check your wallet balance (can filter by currency)."),
    Tool("get_transactions", Banking, "View recent transaction history."),
    Tool("get_profile", Banking, "Get your profile information."),
    Tool("search_users", Banking, "Find users by display tag or name."),
    Guarded("send_money", Banking, "Send money to another user."),
    Tool("get_savings_balance", Savings, "Check savings positions and current APY."),
    Tool("get_vault_rates", Savings, "View current APY rates for savings vaults."),
    Guarded("deposit_savings", Savings, "Move money into savings."),
    Guarded("withdraw_savings", Savings, "Take money out of savings."),
    Tool("create_employee", Directory, "Add new employee to directory."),
    Tool("get_employee", Directory, "Get employee details by ID."),
    Tool("list_employees", Directory, "Show all employees."),
    Tool("update_employee", Directory, "Modify employee information."),
    Tool("delete_employee", Directory, "Remove employee from directory."),
    Tool("list_employees_by_department", Directory, "Filter employees by department."),
    Tool("count_employees", Directory, "Get total employee count."),
    Tool("payroll_check", Payroll, "Check if payroll is completed."),
    Tool("fulfill_remaining_payroll", Payroll, "Process payroll for all employees.")
  ]

  /** Eighteen tools, none filed under Key Features; exactly the three
      that move money ask for confirmation, and those are the ones carrying
      the confirmation note. */
  lemma CatalogueFacts()
    ensures |Catalogue| == 18
    ensures forall i :: 0 <= i < |Catalogue| ==> Catalogue[i].category != KeyFeatures
    ensures forall i :: 0 <= i < |Catalogue| ==>
              (Catalogue[i].requiresConfirmation <==> Catalogue[i].notes == Some(ConfirmationNote))
    ensures forall i :: 0 <= i < |Catalogue| ==>
              (Catalogue[i].requiresConfirmation <==> Catalogue[i].id in ["send_money", "deposit_savings", "withdraw_savings"])
  {
  }

  // ---------------------------------------------------------------------
  // Category chips
  // ---------------------------------------------------------------------

  /** The chip that is selected: 'All' or one category. */
  datatype Selection = All | Only(category: Category)

  function Chip(c: Category): Selection
  {
    Only(c)
  }

  function CategoryOf(c: Command): Category
  {
    c.category
  }

  /** The `categories` memo: 'All', then each category of the commands
      once, in order of first appearance, as a `Set` keeps them. */
  method Chips(cmds: seq<Command>) returns (chips: seq<Selection>)
    ensures chips == [All] + MapSeq(Dedup(MapSeq(cmds, CategoryOf)), Chip)
  {
    var seen: seq<Category> := [];
    for i := 0 to |cmds|
      invariant seen == Dedup(MapSeq(cmds[..i], CategoryOf))
    {
      MapSnoc(cmds, i, CategoryOf);
      DedupSnoc(MapSeq(cmds[..i], CategoryOf), cmds[i].category);
      if cmds[i].category !in seen {
        seen := seen + [cmds[i].category];
      }
    }
    assert cmds[..|cmds|] == cmds;
    chips := [All] + MapSeq(seen, Chip);
  }

  /** 'All' comes first and only there; every category of a command has a
      chip, each exactly once, and no chip names a category without a
      command. */
  lemma {:induction false} ChipsFacts(cmds: seq<Command>, chips: seq<Selection>)
    requires chips == [All] + MapSeq(Dedup(MapSeq(cmds, CategoryOf)), Chip)
    ensures |chips| > 0 && chips[0] == All
    ensures forall k :: 0 < k < |chips| ==> chips[k].Only?
    ensures forall j, k :: 0 <= j < k < |chips| ==> chips[j] != chips[k]
    ensures forall i :: 0 <= i < |cmds| ==> Only(cmds[i].category) in chips
    ensures forall k :: 0 < k < |chips| ==> exists i :: 0 <= i < |cmds| && cmds[i].category == chips[k].category
  {
    ChipsAt(cmds, chips);
    ChipsDistinct(cmds, chips);
    ChipsCover(cmds, chips);
    ChipsSound(cmds, chips);
  }

  /** Past "All", chip `k` is the `k`-th category in order of first
      appearance. */
  lemma ChipsAt(cmds: seq<Command>, chips: seq<Selection>)
    requires chips == [All] + MapSeq(Dedup(MapSeq(cmds, CategoryOf)), Chip)
    ensures |chips| == |Dedup(MapSeq(cmds, CategoryOf))| + 1
    ensures forall k :: 0 < k < |chips| ==> chips[k] == Only(Dedup(MapSeq(cmds, CategoryOf))[k - 1])
  {
  }

  lemma ChipsDistinct(cmds: seq<Command>, chips: seq<Selection>)
    requires chips == [All] + MapSeq(Dedup(MapSeq(cmds, CategoryOf)), Chip)
    ensures forall j, k :: 0 <= j < k < |chips| ==> chips[j] != chips[k]
  {
    ChipsAt(cmds, chips);
  }

  lemma ChipsCover(cmds: seq<Command>, chips: seq<Selection>)
    requires chips == [All] + MapSeq(Dedup(MapSeq(cmds, CategoryOf)), Chip)
    ensures forall i :: 0 <= i < |cmds| ==> Only(cmds[i].category) in chips
  {
    var cats := MapSeq(cmds, CategoryOf);
    var seen := Dedup(cats);
    ChipsAt(cmds, chips);
    forall i | 0 <= i < |cmds|
      ensures Only(cmds[i].category) in chips
    {
      assert cats[i] in seen;
      var k :| 0 <= k < |seen| && seen[k] == cats[i];
      assert chips[k + 1] == Only(cmds[i].category);
    }
  }

  lemma ChipsSound(cmds: seq<Command>, chips: seq<Selection>)
    requires chips == [All] + MapSeq(Dedup(MapSeq(cmds, CategoryOf)), Chip)
    ensures forall k :: 0 < k < |chips| ==> exists i :: 0 <= i < |cmds| && cmds[i].category == chips[k].category
  {
    var cats := MapSeq(cmds, CategoryOf);
    var seen := Dedup(cats);
    ChipsAt(cmds, chips);
    forall k | 0 < k < |chips|
      ensures exists i :: 0 <= i < |cmds| && cmds[i].category == chips[k].category
    {
      assert seen[k - 1] in cats;
      var i :| 0 <= i < |cats| && cats[i] == seen[k - 1];
      assert cmds[i].category == chips[k].category;
    }
  }

  // ---------------------------------------------------------------------
  // Search and category filter
  // ---------------------------------------------------------------------

  /** The search text as it is compared: trimmed and lower-cased. */
  function Needle(query: string): string
  {
    Lower(Trim(query))
  }

  function NotesText(c: Command): string
  {
    if c.notes.Some? then c.notes.value else ""
  }

  predicate InSelection(sel: Selection, c: Command)
  {
    sel.All? || c.category == sel.category
  }

  /** An empty search matches everything; otherwise the name, description
      or notes must contain it, ignoring case. */
  predicate MatchesQuery(q: string, c: Command)
  {
    q == "" || Includes(Lower(c.name), q) || Includes(Lower(c.description), q) || Includes(Lower(NotesText(c)), q)
  }

  function Shows(query: string, sel: Selection): Command -> bool
  {
    (c: Command) => InSelection(sel, c) && MatchesQuery(Needle(query), c)
  }

  /** `filtered`. */
  function Filtered(cmds: seq<Command>, query: string, sel: Selection): seq<Command>
  {
    Filter(cmds, Shows(query, sel))
  }

  /** A command is listed exactly when it is in the selected category and
      matches the search. */
  lemma {:induction false} FilteredExactly(cmds: seq<Command>, query: string, sel: Selection, c: Command)
    ensures c in Filtered(cmds, query, sel) <==> c in cmds && InSelection(sel, c) && MatchesQuery(Needle(query), c)
  {
    if c in cmds && InSelection(sel, c) && MatchesQuery(Needle(query), c) {
      var i :| 0 <= i < |cmds| && cmds[i] == c;
      FilterComplete(cmds, Shows(query, sel), i);
    }
  }

  /** A search of only white space, under 'All', lists every command in
      catalogue order. */
  lemma {:induction false} BlankQueryShowsAll(cmds: seq<Command>, query: string)
    requires AllJsSpace(query)
    ensures Filtered(cmds, query, All) == cmds
  {
    TrimEmpty(query);
    FilterAll(cmds, Shows(query, All));
  }

  /** The search ignores the case of what is typed and the white space
      around it. */
  lemma {:induction false} QueryNormalised(cmds: seq<Command>, query: string, sel: Selection)
    ensures Filtered(cmds, Lower(query), sel) == Filtered(cmds, query, sel)
    ensures Filtered(cmds, Trim(query), sel) == Filtered(cmds, query, sel)
  {
    TrimLower(query);
    LowerIdempotent(Trim(query));
    TrimIdempotent(query);
    assert Needle(Lower(query)) == Needle(query);
    assert Needle(Trim(query)) == Needle(query);
    assert Shows(Lower(query), sel) == Shows(query, sel);
    assert Shows(Trim(query), sel) == Shows(query, sel);
  }

  // ---------------------------------------------------------------------
  // Grouping
  // ---------------------------------------------------------------------

  function InCategory(cat: Category): Command -> bool
  {
    (c: Command) => c.category == cat
  }

  /** The grouping loop: each command is pushed onto its category's list,
      which is created on first sight. The map ends with a list for
      exactly the categories present, holding their commands in order. */
  method GroupBy(filtered: seq<Command>) returns (groups: map<Category, seq<Command>>)
    ensures forall cat :: cat in groups <==> Filter(filtered, InCategory(cat)) != []
    ensures forall cat :: cat in groups ==> groups[cat] == Filter(filtered, InCategory(cat))
  {
    groups := map[];
    for i := 0 to |filtered|
      invariant forall cat :: cat in groups <==> Filter(filtered[..i], InCategory(cat)) != []
      invariant forall cat :: cat in groups ==> groups[cat] == Filter(filtered[..i], InCategory(cat))
    {
      var cmd := filtered[i];
      forall cat: Category
        ensures Filter(filtered[..i + 1], InCategory(cat))
                  == Filter(filtered[..i], InCategory(cat)) + (if cmd.category == cat then [cmd] else [])
      {
        FilterSnoc(filtered, i, InCategory(cat));
      }
      if cmd.category !in groups {
        groups := groups[cmd.category := []];
      }
      groups := groups[cmd.category := groups[cmd.category] + [cmd]];
    }
    assert filtered[..|filtered|] == filtered;
  }

  datatype Group = Group(category: Category, commands: seq<Command>)

  /** The categories in the order the page lists them; Key Features is
      not among them. */
  const Order: seq<Category> := [Banking, Savings, Directory, Payroll]

  /** `order.filter(cat => map.has(cat)).map(...)`. */
  function Arrange(order: seq<Category>, groups: map<Category, seq<Command>>): seq<Group>
  {
    if |order| == 0 then []
    else
      (if order[0] in groups then [Group(order[0], groups[order[0]])] else []) + Arrange(order[1..], groups)
  }

  /** The groups the page shows for `filtered`: one per category of
      `order` that has a command, with its commands in order. */
  function Sections(filtered: seq<Command>, order: seq<Category>): seq<Group>
  {
    if |order| == 0 then []
    else
      var members := Filter(filtered, InCategory(order[0]));
      (if members != [] then [Group(order[0], members)] else []) + Sections(filtered, order[1..])
  }

  /** Arranging the loop's map gives the sections of the filtered list. */
  lemma {:induction false} ArrangeSections(filtered: seq<Command>, order: seq<Category>, groups: map<Category, seq<Command>>)
    requires forall cat :: cat in groups <==> Filter(filtered, InCategory(cat)) != []
    requires forall cat :: cat in groups ==> groups[cat] == Filter(filtered, InCategory(cat))
    ensures Arrange(order, groups) == Sections(filtered, order)
  {
    if |order| > 0 {
      ArrangeSections(filtered, order[1..], groups);
    }
  }

  /** `grouped`. */
  method Grouped(cmds: seq<Command>, query: string, sel: Selection) returns (grouped: seq<Group>)
    ensures grouped == Sections(Filtered(cmds, query, sel), Order)
  {
    var filtered := Filtered(cmds, query, sel);
    var groups := GroupBy(filtered);
    ArrangeSections(filtered, Order, groups);
    grouped := Arrange(Order, groups);
  }

  /** The position of a category in `order`. */
  function IndexOf(order: seq<Category>, cat: Category): nat
  {
    if |order| == 0 || order[0] == cat then 0 else 1 + IndexOf(order[1..], cat)
  }

  /** The groups' categories come in the order of `order`. */
  predicate Increasing(gs: seq<Group>, order: seq<Category>)
  {
    forall j, k :: 0 <= j < k < |gs| ==> IndexOf(order, gs[j].category) < IndexOf(order, gs[k].category)
  }

  /** Every group is non-empty, belongs to a category of `order` and
      holds the filtered commands of that category, in their order. */
  lemma {:induction false} SectionsMembers(filtered: seq<Command>, order: seq<Category>)
    ensures forall g :: g in Sections(filtered, order) ==> g.commands != [] && g.category in order
    ensures forall g :: g in Sections(filtered, order) ==> g.commands == Filter(filtered, InCategory(g.category))
  {
    if |order| > 0 {
      SectionsMembers(filtered, order[1..]);
    }
  }

  /** The groups follow `order`, so with distinct categories in `order`
      no category is shown twice. */
  lemma {:induction false} SectionsOrdered(filtered: seq<Command>, order: seq<Category>)
    requires Distinct(order)
    ensures Increasing(Sections(filtered, order), order)
  {
    if |order| > 0 {
      var rest := order[1..];
      assert Distinct(rest) by {
        assert forall i :: 0 <= i < |rest| ==> rest[i] == order[i + 1];
      }
      SectionsOrdered(filtered, rest);
      SectionsMembers(filtered, rest);
      var tail := Sections(filtered, rest);
      forall k | 0 <= k < |tail|
        ensures IndexOf(order, tail[k].category) == 1 + IndexOf(rest, tail[k].category)
      {
        assert tail[k] in tail;
        IndexAfterHead(order, tail[k].category);
      }
      var members := Filter(filtered, InCategory(order[0]));
      if members != [] {
        var gs := Sections(filtered, order);
        assert gs == [Group(order[0], members)] + tail;
        assert forall k :: 0 < k < |gs| ==> gs[k] == tail[k - 1];
      }
    }
  }

  /** A category after the head of a list without repeats sits one place
      further on than in the rest. */
  lemma {:induction false} IndexAfterHead(order: seq<Category>, c: Category)
    requires Distinct(order) && |order| > 0 && c in order[1..]
    ensures IndexOf(order, c) == 1 + IndexOf(order[1..], c)
  {
    var i :| 0 <= i < |order| - 1 && order[1..][i] == c;
    assert order[i + 1] == c;
  }

  /** The grouped page never shows a Key Features group, and its groups
      come in the order Banking, Savings, Employee Directory, Payroll. */
  lemma {:induction false} GroupedFacts(cmds: seq<Command>, query: string, sel: Selection)
    ensures forall g :: g in Sections(Filtered(cmds, query, sel), Order) ==> g.commands != [] && g.category != KeyFeatures
    ensures Increasing(Sections(Filtered(cmds, query, sel), Order), Order)
  {
    SectionsMembers(Filtered(cmds, query, sel), Order);
    SectionsOrdered(Filtered(cmds, query, sel), Order);
  }

  // ---------------------------------------------------------------------
  // Count shown
  // ---------------------------------------------------------------------

  /** `totalShown`: the sum of the group sizes. */
  function TotalShown(gs: seq<Group>): nat
  {
    if |gs| == 0 then 0 else |gs[0].commands| + TotalShown(gs[1..])
  }

  /** The number of commands of `order`'s categories. */
  function CountIn(s: seq<Command>, order: seq<Category>): nat
  {
    if |order| == 0 then 0 else |Filter(s, InCategory(order[0]))| + CountIn(s, order[1..])
  }

  /** The groups hold as many commands as `order`'s categories have. */
  lemma {:induction false} SectionsTotal(filtered: seq<Command>, order: seq<Category>)
    ensures TotalShown(Sections(filtered, order)) == CountIn(filtered, order)
  {
    if |order| > 0 {
      SectionsTotal(filtered, order[1..]);
      var members := Filter(filtered, InCategory(order[0]));
      var head := if members != [] then [Group(order[0], members)] else [];
      TotalShownAppend(head, Sections(filtered, order[1..]));
    }
  }

  lemma {:induction false} TotalShownAppend(a: seq<Group>, b: seq<Group>)
    ensures TotalShown(a + b) == TotalShown(a) + TotalShown(b)
  {
    if |a| > 0 {
      assert (a + b)[1..] == a[1..] + b;
      TotalShownAppend(a[1..], b);
    } else {
      assert a + b == b;
    }
  }

  /** Over a list whose every category appears once in `order`, each
      command is counted exactly once. */
  lemma {:induction false} CountInAll(s: seq<Command>, order: seq<Category>)
    requires Distinct(order)
    requires forall i :: 0 <= i < |s| ==> s[i].category in order
    ensures CountIn(s, order) == |s|
  {
    if |s| > 0 {
      var t := s[1..];
      assert forall i :: 0 <= i < |t| ==> t[i] == s[i + 1];
      CountInAll(t, order);
      CountInCons(s, order);
      assert s[0].category in order;
    } else {
      CountInEmpty(order);
    }
  }

  lemma {:induction false} CountInEmpty(order: seq<Category>)
    ensures CountIn([], order) == 0
  {
    if |order| > 0 {
      CountInEmpty(order[1..]);
    }
  }

  /** A command in front adds one to the count of its own category. */
  lemma {:induction false} CountInCons(s: seq<Command>, order: seq<Category>)
    requires |s| > 0 && Distinct(order)
    ensures CountIn(s, order) == CountIn(s[1..], order) + (if s[0].category in order then 1 else 0)
  {
    if |order| > 0 {
      var rest := order[1..];
      assert Distinct(rest) by {
        assert forall i :: 0 <= i < |rest| ==> rest[i] == order[i + 1];
      }
      CountInCons(s, rest);
      assert s[0].category in order <==> s[0].category == order[0] || s[0].category in rest;
      if s[0].category == order[0] {
        assert s[0].category !in rest by {
          assert forall i :: 0 <= i < |rest| ==> rest[i] == order[i + 1];
        }
      }
    }
  }

  /** When no listed command is filed under Key Features, `totalShown` is
      the number of filtered commands, so nothing is lost by grouping. */
  lemma {:induction false} TotalShownCount(cmds: seq<Command>, query: string, sel: Selection)
    requires forall i :: 0 <= i < |cmds| ==> cmds[i].category != KeyFeatures
    ensures TotalShown(Sections(Filtered(cmds, query, sel), Order)) == |Filtered(cmds, query, sel)|
  {
    var filtered := Filtered(cmds, query, sel);
    SectionsTotal(filtered, Order);
    forall i | 0 <= i < |filtered|
      ensures filtered[i].category in Order
    {
      assert filtered[i] in cmds;
      var j :| 0 <= j < |cmds| && cmds[j] == filtered[i];
      OrderHolds(cmds[j].category);
    }
    OrderHolds(KeyFeatures);
    CountInAll(filtered, Order);
  }

  /** The section order lists each category once, all but Key Features. */
  lemma OrderHolds(c: Category)
    ensures Distinct(Order)
    ensures c in Order <==> c != KeyFeatures
  {
  }

  /** A command filed under Key Features passes the filter but is never
      shown: `totalShown` then falls short of the filtered count. */
  lemma KeyFeaturesHidden()
    ensures var cmds := [Tool("tour", KeyFeatures, "Overview.")];
            && |Filtered(cmds, "", All)| == 1
            && TotalShown(Sections(Filtered(cmds, "", All), Order)) == 0
  {
    var cmds := [Tool("tour", KeyFeatures, "Overview.")];
    assert Trim("") == "";
    assert Filtered(cmds, "", All) == cmds;
  }
}
