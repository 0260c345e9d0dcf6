/**
 * The administrator's dashboard (components/AdminDashboard.tsx): the copy of
 * the store it displays, the pending-orders badge, the approve and preview
 * actions on orders, and the form that adds a project with its tag list.
 */
module Admin {
  import opened Optional
  import opened Strings
  import opened Seqs
  import opened Types
  import opened Store
  import opened Portfolio

  // The project form

  /** The `newProject` form state; every field the form edits is always present. */
  datatype ProjectForm = ProjectForm(
    title: string,
    category: string,
    image: string,
    description: string,
    colorPalette: string,
    tags: seq<string>)

  /** The blank form: category companies, palette blue, no tags. */
  function DefaultForm(): ProjectForm {
    ProjectForm("", Companies, "", "", Blue, [])
  }

  /** The form inputs bound to a single text value. */
  datatype FormField = Title | Category | Palette | Image | Description

  /** `{ ...newProject, [field]: value }`. */
  function WithField(f: ProjectForm, field: FormField, value: string): ProjectForm {
    match field
    case Title => f.(title := value)
    case Category => f.(category := value)
    case Palette => f.(colorPalette := value)
    case Image => f.(image := value)
    case Description => f.(description := value)
  }

  /** `newProject as Project`, the argument `addProject` receives. */
  function FormDraft(f: ProjectForm): ProjectDraft {
    ProjectDraft(f.title, f.category, f.image, f.description, Some(f.colorPalette), Some(f.tags))
  }

  /** The options of the category select. */
  const FormCategories: seq<string> := [Stores, Companies, Personal]

  /** The save guard: a project needs a title and an image address. */
  predicate CanSave(f: ProjectForm)
    ensures CanSave(f) ==> FormDraft(f).title != "" && FormDraft(f).image != ""
  {
    f.title != "" && f.image != ""
  }

  /** Tags as `addTag` keeps them: distinct, non-empty and already trimmed. */
  predicate TagsClean(tags: seq<string>) {
    NoDup(tags) && forall i :: 0 <= i < |tags| ==> tags[i] != "" && Trim(tags[i]) == tags[i]
  }

  /** The tag list after `addTag` with the text box holding `raw`. */
  function TagsAfterAdd(tags: seq<string>, raw: string): (r: seq<string>)
    ensures tags <= r && |r| <= |tags| + 1
    ensures |r| > |tags| ==> r[|tags|] == Trim(raw) && Trim(raw) != [] && Trim(raw) !in tags
  {
    var t := Trim(raw);
    if t == [] || t in tags then tags else tags + [t]
  }

  function TagIsNot(tag: string): string -> bool {
    t => t != tag
  }

  /** `tags.filter(t => t !== tag)`. */
  function TagsAfterRemove(tags: seq<string>, tag: string): (r: seq<string>)
    ensures |r| <= |tags| && tag !in r
    ensures forall i :: 0 <= i < |r| ==> r[i] in tags
  {
    Filter(tags, TagIsNot(tag))
  }

  // Orders as the dashboard shows them

  predicate NotCompleted(o: SiteOrder) {
    o.status != Completed
  }

  predicate IsCompleted(o: SiteOrder) {
    o.status == Completed
  }

  /**
   * `orders.filter(o => o.status !== 'مكتمل').length`, the number on the
   * badge; the badge is drawn exactly when it is positive, that is when some
   * order is not complete.
   */
  function PendingCount(orders: seq<SiteOrder>): (n: nat)
    ensures n <= |orders|
    ensures n > 0 <==> exists i :: 0 <= i < |orders| && orders[i].status != Completed
  {
    var r := Filter(orders, NotCompleted);
    assert |r| > 0 ==> r[0] in orders && NotCompleted(r[0]);
    |r|
  }

  /** The approve button is offered only for an order whose site was generated. */
  predicate ApproveShown(o: SiteOrder)
    ensures ApproveShown(o) ==> NotCompleted(o)
  {
    o.status == Generated
  }

  /** The preview modal is drawn while `previewHtml` is truthy. */
  predicate PreviewOpen(previewHtml: Option<string>)
    ensures PreviewOpen(previewHtml) ==> previewHtml.Some? && |previewHtml.value| > 0
  {
    previewHtml.Some? && previewHtml.value != ""
  }

  /**
   * The palette dot of a project card, drawn only for a truthy palette: gold,
   * blue and purple have their own tone and every other value is emerald.
   */
  function DotTone(palette: Option<string>): (r: Option<Tone>)
    ensures r.None? <==> palette.None? || palette.value == ""
  {
    if palette.None? || palette.value == "" then None
    else if palette.value == Gold then Some(AmberTone)
    else if palette.value == Blue then Some(BlueTone)
    else if palette.value == Purple then Some(PurpleTone)
    else Some(EmeraldTone)
  }

  class AdminView {
    var projects: seq<Project>
    var orders: seq<SiteOrder>
    var isLoading: bool
    var isAddingProject: bool
    var previewHtml: Option<string>
    var form: ProjectForm
    var tagInput: string

    /** The form's tags stay clean, and a preview, when set, has markup to show. */
    ghost predicate Valid()
      reads this
    {
      TagsClean(form.tags) && (previewHtml.Some? ==> previewHtml.value != "")
    }

    /** The first render: nothing loaded yet, loading, no modal, a blank form. */
    constructor ()
      ensures Valid()
      ensures projects == [] && orders == [] && isLoading && !isAddingProject
      ensures previewHtml == None && form == DefaultForm() && tagInput == ""
    {
      projects := [];
      orders := [];
      isLoading := true;
      isAddingProject := false;
      previewHtml := None;
      form := DefaultForm();
      tagInput := "";
    }

    /**
     * `loadData`: reads both collections from the store. It runs on mount,
     * from the refresh button, and on every `projectsUpdated` and
     * `ordersUpdated` event.
     */
    method LoadData(db: DatabaseService)
      modifies this`projects, this`orders, this`isLoading
      ensures projects == db.GetProjects() && orders == db.GetOrders() && !isLoading
    {
      isLoading := true;
      var p := db.GetProjects();
      var o := db.GetOrders();
      projects := p;
      orders := o;
      isLoading := false;
    }

    /** "Approve and send": marks the order complete in the store. */
    method HandleApproveOrder(db: DatabaseService, id: string)
      modifies db
      ensures db.storedOrders == Some(WithStatus(old(db.GetOrders()), id, Completed))
      ensures db.storedProjects == old(db.storedProjects)
      ensures db.events == old(db.events) + [OrdersUpdated]
    {
      db.UpdateOrderStatus(id, Completed);
    }

    /** `openPreview`: an order without markup leaves the preview as it was. */
    method OpenPreview(html: Option<string>)
      requires Valid()
      modifies this`previewHtml
      ensures Valid()
      ensures if html.None? || html.value == "" then previewHtml == old(previewHtml) else previewHtml == html
      ensures PreviewOpen(html) ==> PreviewOpen(previewHtml)
    {
      if html.None? || html.value == "" {
        return;
      }
      previewHtml := html;
    }

    /** Either close button of the preview modal. */
    method ClosePreview()
      requires Valid()
      modifies this`previewHtml
      ensures Valid() && previewHtml == None && !PreviewOpen(previewHtml)
    {
      previewHtml := None;
    }

    method OpenAddForm()
      modifies this`isAddingProject
      ensures isAddingProject
    {
      isAddingProject := true;
    }

    method CloseAddForm()
      modifies this`isAddingProject
      ensures !isAddingProject
    {
      isAddingProject := false;
    }

    /** The `onChange` of a text input, the category select or a palette button. */
    method EditForm(field: FormField, value: string)
      requires Valid()
      modifies this`form
      ensures Valid()
      ensures form == WithField(old(form), field, value) && form.tags == old(form.tags)
    {
      form := WithField(form, field, value);
    }

    method SetTagInput(value: string)
      modifies this`tagInput
      ensures tagInput == value
    {
      tagInput := value;
    }

    /**
     * `addTag`: a blank entry or a tag already on the list changes nothing,
     * not even the text box; otherwise the trimmed entry is appended and the
     * text box is cleared.
     */
    method AddTag()
      requires Valid()
      modifies this`form, this`tagInput
      ensures Valid()
      ensures var t := Trim(old(tagInput));
        if IsBlank(old(tagInput)) || t in old(form.tags)
        then form == old(form) && tagInput == old(tagInput)
        else form == old(form).(tags := old(form.tags) + [t]) && tagInput == ""
      ensures form.tags == TagsAfterAdd(old(form.tags), old(tagInput))
    {
      var t := Trim(tagInput);
      TrimEmptyIffBlank(tagInput);
      if t == [] {
        return;
      }
      if t in form.tags {
        return;
      }
      AddedTagKeepsClean(form.tags, tagInput);
      form := form.(tags := form.tags + [t]);
      tagInput := "";
    }

    /** `removeTag`: the cross on a tag chip. */
    method RemoveTag(tag: string)
      requires Valid()
      modifies this`form
      ensures Valid()
      ensures form == old(form).(tags := TagsAfterRemove(old(form.tags), tag))
      ensures tag !in form.tags
    {
      RemovedTagKeepsClean(form.tags, tag);
      form := form.(tags := TagsAfterRemove(form.tags, tag));
    }

    /**
     * `handleSaveProject`: without a title or an image nothing happens;
     * otherwise the form goes to the store as a new project at the front of
     * the list, the modal closes and the form and tag box are reset.
     */
    method HandleSaveProject(db: DatabaseService, randomId: string) returns (saved: Option<Project>)
      requires Valid()
      modifies this`isAddingProject, this`form, this`tagInput, db
      ensures Valid()
      ensures !CanSave(old(form)) ==>
        saved == None && form == old(form) && tagInput == old(tagInput)
        && isAddingProject == old(isAddingProject)
        && db.storedProjects == old(db.storedProjects) && db.events == old(db.events)
      ensures CanSave(old(form)) ==>
        saved == Some(WithId(FormDraft(old(form)), randomId))
        && db.storedProjects == Some([saved.value] + old(db.GetProjects()))
        && db.events == old(db.events) + [ProjectsUpdated]
        && !isAddingProject && form == DefaultForm() && tagInput == ""
      ensures db.storedOrders == old(db.storedOrders)
    {
      if !CanSave(form) {
        return None;
      }
      var p := db.AddProject(FormDraft(form), randomId);
      saved := Some(p);
      isAddingProject := false;
      form := DefaultForm();
      tagInput := "";
    }
  }

  // Lemmas

  /** Adding a tag keeps the list distinct, non-empty and trimmed. */
  lemma AddedTagKeepsClean(tags: seq<string>, raw: string)
    requires TagsClean(tags)
    ensures TagsClean(TagsAfterAdd(tags, raw))
  {
    var t := Trim(raw);
    if t != [] && t !in tags {
      TrimIdempotent(raw);
      var r := tags + [t];
      assert NoDup(r) by {
        forall i, j | 0 <= i < j < |r| ensures r[i] != r[j] {
          if j == |tags| {
            assert r[i] == tags[i];
          } else {
            assert r[i] == tags[i] && r[j] == tags[j];
          }
        }
      }
      forall i | 0 <= i < |r| ensures r[i] != "" && Trim(r[i]) == r[i] {
        if i < |tags| {
          assert r[i] == tags[i];
        }
      }
    }
  }

  /** Adding the same entry twice is adding it once. */
  lemma AddTagIdempotent(tags: seq<string>, raw: string)
    ensures TagsAfterAdd(TagsAfterAdd(tags, raw), raw) == TagsAfterAdd(tags, raw)
  {
  }

  /** An added tag is on the list afterwards, at the end when it is new. */
  lemma AddedTagPresent(tags: seq<string>, raw: string)
    requires !IsBlank(raw)
    ensures Trim(raw) in TagsAfterAdd(tags, raw)
    ensures Trim(raw) !in tags ==> TagsAfterAdd(tags, raw) == tags + [Trim(raw)]
  {
    TrimEmptyIffBlank(raw);
  }

  /** Removing a tag drops every copy of it and keeps every other tag, in order. */
  lemma RemoveTagExact(tags: seq<string>, tag: string)
    ensures var r := TagsAfterRemove(tags, tag);
      IsSubseq(r, tags) && tag !in r
      && (forall i :: 0 <= i < |tags| && tags[i] != tag ==> tags[i] in r)
  {
    FilterIsSubseq(tags, TagIsNot(tag));
  }

  /** Removing a tag keeps the list clean. */
  lemma RemovedTagKeepsClean(tags: seq<string>, tag: string)
    requires TagsClean(tags)
    ensures TagsClean(TagsAfterRemove(tags, tag))
  {
    FilterKeepsNoDup(tags, TagIsNot(tag));
  }

  /** Removing a tag that was just added gives back the list from before. */
  lemma RemoveUndoesAdd(tags: seq<string>, raw: string)
    requires !IsBlank(raw) && Trim(raw) !in tags
    ensures TagsAfterRemove(TagsAfterAdd(tags, raw), Trim(raw)) == tags
  {
    var t := Trim(raw);
    TrimEmptyIffBlank(raw);
    FilterAppend(tags, [t], TagIsNot(t));
    FilterKeepsAll(tags, TagIsNot(t));
    assert Filter([t], TagIsNot(t)) == [];
  }

  /** Every order counts either on the badge or as complete. */
  lemma PendingPlusCompleted(orders: seq<SiteOrder>)
    ensures PendingCount(orders) + |Filter(orders, IsCompleted)| == |orders|
  {
    FilterSplitsLength(orders, NotCompleted, IsCompleted);
  }

  /**
   * Approving an order marks it complete, sends no order back to pending, and
   * lowers the badge count when the order was offered for approval.
   */
  lemma {:induction false} ApprovalLowersPending(orders: seq<SiteOrder>, i: nat)
    requires i < |orders|
    ensures var after := WithStatus(orders, orders[i].id, Completed);
      after[i].status == Completed
      && PendingCount(after) <= PendingCount(orders)
      && (ApproveShown(orders[i]) ==> PendingCount(after) < PendingCount(orders))
  {
    var after := WithStatus(orders, orders[i].id, Completed);
    WithStatusPointwise(orders, orders[i].id, Completed);
    assert forall j :: 0 <= j < |after| && NotCompleted(after[j]) ==> NotCompleted(orders[j]);
    if ApproveShown(orders[i]) {
      assert NotCompleted(orders[i]) && !NotCompleted(after[i]);
    }
    FilterPointwiseFewer(orders, after, NotCompleted);
  }

  /**
   * The dashboard draws the same palette dot as a portfolio card; as there,
   * that tone matches the portfolio's border and badge tone on the four
   * palettes, while any other value gives an emerald dot where the border
   * and badge are slate.
   */
  lemma DotToneAgreesWithPortfolio(palette: Option<string>)
    ensures DotTone(palette) == CardDotTone(palette)
    ensures palette.Some? && palette.value in Palettes ==> DotTone(palette) == Some(PaletteTone(palette))
    ensures palette.Some? && palette.value != "" && palette.value !in Palettes ==>
      DotTone(palette) == Some(EmeraldTone) && PaletteTone(palette) == SlateTone
  {
  }

  /**
   * A project saved from a form whose category and palette come from its
   * controls is found by the portfolio's button for that category, the one
   * for that palette, and the one for each of its tags.
   */
  lemma SavedProjectFilterable(f: ProjectForm, id: string)
    requires f.category in FormCategories && f.colorPalette in Palettes
    ensures var p := WithId(FormDraft(f), id);
      f.category in Categories && f.category != All
      && f.colorPalette in ColorFilters && f.colorPalette != All
      && Matches(p, f.category, f.colorPalette, All)
      && forall k :: 0 <= k < |f.tags| ==> Matches(p, All, All, f.tags[k])
  {
  }

  /**
   * An administrator who loads a store holding one generated order sees a
   * badge of one; after approving it and the reload the event triggers, the
   * badge is gone.
   */
  method ApproveClearsBadge(o: SiteOrder) returns (before: nat, after: nat)
    requires ApproveShown(o)
    ensures before == 1 && after == 0
  {
    var db := new DatabaseService([], Some([]), Some([o]));
    var view := new AdminView();
    view.LoadData(db);
    before := PendingCount(view.orders);
    view.HandleApproveOrder(db, o.id);
    view.LoadData(db);
    WithStatusPointwise([o], o.id, Completed);
    assert view.orders == [o.(status := Completed)];
    after := PendingCount(view.orders);
  }

  /**
   * A project saved from the blank form with a title and an image lands in
   * the companies category with the blue palette and no tags, and heads the
   * grid the portfolio shows for the companies button once it reloads.
   */
  method SavedProjectShowsFirst(title: string, image: string, existing: seq<Project>, id: string)
    returns (saved: Project, shown: seq<Project>)
    requires title != "" && image != ""
    ensures saved.id == id && saved.title == title && saved.image == image
    ensures saved.category == Companies && saved.colorPalette == Some(Blue) && saved.tags == Some([])
    ensures shown != [] && shown[0] == saved
  {
    var db := new DatabaseService([], Some(existing), Some([]));
    var admin := new AdminView();
    admin.OpenAddForm();
    admin.EditForm(Title, title);
    admin.EditForm(Image, image);
    ghost var form := admin.form;
    assert form == DefaultForm().(title := title, image := image);
    assert CanSave(form);
    var result := admin.HandleSaveProject(db, id);
    saved := result.value;
    var stored := db.GetProjects();
    assert stored == [saved] + existing;
    MatchingHeadLeads(stored, Companies, All, All);
    shown := FilteredProjects(stored, Companies, All, All);
  }
}
