/** The portfolio page: past projects kept in the store under 'portfolioItems',
    seeded with three examples when empty, with create, edit, delete and a
    plain-text copy of an item. */
module PortfolioPage {
  import opened Optional
  import opened Text
  import opened Collections
  import opened Records
  import opened Storage

  datatype ItemForm = ItemForm(title: string, techStack: string, resultSnippet: string, link: string)

  const EmptyForm := ItemForm("", "", "", "")

    /** The four text fields of a portfolio item. */
  datatype ItemText = ItemText(title: string, techStack: string, resultSnippet: string, link: string)

  /** The texts of the three default items, in their order. */
  function DefaultItemText(i: nat): ItemText
    requires i < 3
  {
    if i == 0 then ItemText("E-commerce Dashboard", "React, Node.js, MongoDB, Stripe",
      "Increased client revenue by 40% with real-time analytics",
      "https://github.com/example/ecommerce-dashboard")
    else if i == 1 then ItemText("Task Management App", "React Native, Firebase, Redux",
      "Improved team productivity by 60% with intuitive mobile interface",
      "https://apps.apple.com/app/task-manager")
    else ItemText("AI Content Generator", "Next.js, OpenAI API, PostgreSQL",
      "Reduced content creation time by 75% for marketing teams",
      "https://ai-content-generator.com")
  }

  /** The three default items: ids "1" to "3", the default texts, created
      `now`, never updated. */
  function DefaultItems(now: string): (r: seq<PortfolioItem>)
    ensures |r| == 3
    ensures forall i :: 0 <= i < |r| ==>
      && r[i].id == NatToString(i + 1) && r[i].title == DefaultItemText(i).title
      && r[i].techStack == DefaultItemText(i).techStack && r[i].resultSnippet == DefaultItemText(i).resultSnippet
      && r[i].link == DefaultItemText(i).link && r[i].createdAt == now && r[i].updatedAt == None
  {
    seq(3, i requires 0 <= i < 3 =>
      var text := DefaultItemText(i);
      PortfolioItem(NatToString(i + 1), text.title, text.techStack, text.resultSnippet, text.link, now, None))
  }

  /** The default items have pairwise distinct ids. */
  lemma DefaultItemIdsDistinct(now: string)
    ensures forall i, j :: 0 <= i < j < 3 ==> DefaultItems(now)[i].id != DefaultItems(now)[j].id
  {
    var r := DefaultItems(now);
    assert r[0].id == "1" && r[1].id == "2" && r[2].id == "3";
  }

  function NewItem(form: ItemForm, id: string, now: string): PortfolioItem {
    PortfolioItem(id, form.title, form.techStack, form.resultSnippet, form.link, now, None)
  }

  /** The edited item: the form's fields and a fresh `updatedAt`; id and creation
      time kept. */
  function EditedItem(item: PortfolioItem, form: ItemForm, now: string): (r: PortfolioItem)
    ensures r.id == item.id && r.createdAt == item.createdAt && r.updatedAt == Some(now)
    ensures r.title == form.title && r.techStack == form.techStack
    ensures r.resultSnippet == form.resultSnippet && r.link == form.link
  {
    item.(title := form.title, techStack := form.techStack, resultSnippet := form.resultSnippet,
          link := form.link, updatedAt := Some(now))
  }

  const TechStackLabel := "Tech Stack: "
  const ResultLabel := "Result: "
  const LinkLabel := "Link: "

  /** `handleCopyItem`'s text: four lines, the title and three labelled fields. */
  function CopyText(item: PortfolioItem): string {
    item.title + "\n" + (TechStackLabel + item.techStack) + "\n" + (ResultLabel + item.resultSnippet)
      + "\n" + (LinkLabel + item.link)
  }

  /** A labelled line has no line break when its value has none. */
  lemma LabelledLine(heading: string, value: string)
    requires heading in {TechStackLabel, ResultLabel, LinkLabel}
    requires '\n' !in value
    ensures '\n' !in heading + value
  {
    assert forall i :: 0 <= i < |heading| ==> heading[i] != '\n';
  }

  /** When no field holds a line break, the copied text splits back into exactly
      the title and the three labelled lines. */
  lemma CopyTextLines(item: PortfolioItem)
    requires '\n' !in item.title && '\n' !in item.techStack && '\n' !in item.resultSnippet && '\n' !in item.link
    ensures Split(CopyText(item), '\n') ==
      [item.title, TechStackLabel + item.techStack, ResultLabel + item.resultSnippet, LinkLabel + item.link]
  {
    var parts := [item.title, TechStackLabel + item.techStack, ResultLabel + item.resultSnippet, LinkLabel + item.link];
    LabelledLine(TechStackLabel, item.techStack);
    LabelledLine(ResultLabel, item.resultSnippet);
    LabelledLine(LinkLabel, item.link);
    JoinFour(parts[0], parts[1], parts[2], parts[3], "\n");
    SplitJoin(parts, '\n');
  }

  class PortfolioPageState {
    const store: Store
    var items: seq<PortfolioItem>
    var createOpen: bool
    var editing: Option<PortfolioItem>
    var form: ItemForm

    constructor(store: Store)
      ensures this.store == store
      ensures items == [] && !createOpen && editing == None && form == EmptyForm
    {
      this.store := store;
      items := [];
      createOpen := false;
      editing := None;
      form := EmptyForm;
    }

    predicate Synced()
      reads this, store
    {
      items == store.portfolioItems
    }

    /** The mount effect: an empty store is seeded with the three examples; any
        other list is shown as it is. Afterwards the store is never empty. */
    method Load(now: string)
      modifies this, store`portfolioItems
      ensures old(store.portfolioItems) == [] ==> items == DefaultItems(now)
      ensures old(store.portfolioItems) != [] ==> items == old(store.portfolioItems)
      ensures Synced() && store.portfolioItems != []
      ensures createOpen == old(createOpen) && editing == old(editing) && form == old(form)
    {
      var saved := store.portfolioItems;
      if |saved| == 0 {
        var defaults := DefaultItems(now);
        items := defaults;
        store.portfolioItems := defaults;
      } else {
        items := saved;
      }
    }

    method SetForm(f: ItemForm)
      modifies this`form
      ensures form == f
    {
      form := f;
    }

    method SetCreateOpen(open: bool)
      modifies this`createOpen
      ensures createOpen == open
    {
      createOpen := open;
    }

    method CancelCreate()
      modifies this`createOpen, this`form
      ensures !createOpen && form == EmptyForm
    {
      createOpen := false;
      form := EmptyForm;
    }

    /** `handleCreate`: a blank title is refused; otherwise the item is appended
        and the list stored, the form cleared and the dialog closed. */
    method Create(id: string, now: string)
      modifies this, store`portfolioItems
      ensures IsBlank(old(form.title)) ==>
        items == old(items) && store.portfolioItems == old(store.portfolioItems)
        && form == old(form) && createOpen == old(createOpen)
      ensures !IsBlank(old(form.title)) ==>
        && items == old(items) + [NewItem(old(form), id, now)]
        && store.portfolioItems == items
        && form == EmptyForm && !createOpen
      ensures editing == old(editing)
    {
      if IsBlank(form.title) {
        return;
      }
      var updated := items + [NewItem(form, id, now)];
      items := updated;
      store.portfolioItems := updated;
      form := EmptyForm;
      createOpen := false;
    }

    method Edit(item: PortfolioItem)
      modifies this`editing, this`form
      ensures editing == Some(item)
      ensures form == ItemForm(item.title, item.techStack, item.resultSnippet, item.link)
    {
      editing := Some(item);
      form := ItemForm(item.title, item.techStack, item.resultSnippet, item.link);
    }

    method DismissEdit()
      modifies this`editing
      ensures editing == None
    {
      editing := None;
    }

    method CancelEdit()
      modifies this`editing, this`form
      ensures editing == None && form == EmptyForm
    {
      editing := None;
      form := EmptyForm;
    }

    /** `handleUpdate`: without an edited item or with a blank title nothing
        changes; otherwise the items with the edited id are replaced and the list
        stored. */
    method Update(now: string)
      modifies this, store`portfolioItems
      ensures old(editing).None? || IsBlank(old(form.title)) ==>
        items == old(items) && store.portfolioItems == old(store.portfolioItems)
        && editing == old(editing) && form == old(form)
      ensures old(editing).Some? && !IsBlank(old(form.title)) ==>
        && items == ReplaceKey(old(items), PortfolioItemId, old(editing).value.id,
                               EditedItem(old(editing).value, old(form), now))
        && store.portfolioItems == items
        && editing == None && form == EmptyForm
      ensures createOpen == old(createOpen)
    {
      if editing.Some? && !IsBlank(form.title) {
        var item := editing.value;
        var updated := ReplaceKey(items, PortfolioItemId, item.id, EditedItem(item, form, now));
        items := updated;
        store.portfolioItems := updated;
        editing := None;
        form := EmptyForm;
      }
    }

    /** `handleDelete`: after confirmation, the items with the id are removed. */
    method Delete(id: string, confirmed: bool)
      modifies this`items, store`portfolioItems
      ensures !confirmed ==> items == old(items) && store.portfolioItems == old(store.portfolioItems)
      ensures confirmed ==> items == RemoveKey(old(items), PortfolioItemId, id) && store.portfolioItems == items
    {
      if confirmed {
        var updated := RemoveKey(items, PortfolioItemId, id);
        items := updated;
        store.portfolioItems := updated;
      }
    }
  }

  /** Deleting an item just created with a fresh id restores the list. */
  lemma CreateThenDelete(items: seq<PortfolioItem>, form: ItemForm, id: string, now: string)
    requires !HasKey(items, PortfolioItemId, id)
    ensures RemoveKey(items + [NewItem(form, id, now)], PortfolioItemId, id) == items
  {
    RemoveKeyAfterAppend(items, PortfolioItemId, NewItem(form, id, now));
  }
}
