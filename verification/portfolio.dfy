/**
 * The public portfolio grid (components/Portfolio.tsx): three filters over
 * the stored projects, the tag buttons derived from the projects, the
 * palette colouring of each card and its shortened tag list.
 */
module Portfolio {
  import opened Optional
  import opened Seqs
  import opened Types
  import opened Store

  /** The category buttons, wildcard first. */
  const Categories: seq<string> := [All, Stores, Companies, Personal]

  /** The palettes a project can carry. */
  const Palettes: seq<string> := [Blue, Gold, Purple, Green]

  /** The colour buttons, wildcard first. */
  const ColorFilters: seq<string> := [All] + Palettes

  // Filtering

  /** `p.tags || []`. */
  function TagsOf(p: Project): seq<string> {
    if p.tags.Some? then p.tags.value else []
  }

  /**
   * The three conditions of `filteredProjects`; each is switched off by the
   * wildcard. A project without a palette matches only the wildcard colour,
   * and one without tags only the wildcard tag.
   */
  predicate Matches(p: Project, category: string, color: string, tag: string) {
    (category == All || p.category == category)
    && (color == All || p.colorPalette == Some(color))
    && (tag == All || (p.tags.Some? && tag in p.tags.value))
  }

  function MatchesFilters(category: string, color: string, tag: string): Project -> bool {
    p => Matches(p, category, color, tag)
  }

  /** `filteredProjects`: the projects meeting all three filters, in store order. */
  function FilteredProjects(ps: seq<Project>, category: string, color: string, tag: string): (r: seq<Project>)
    ensures |r| <= |ps|
    ensures forall i :: 0 <= i < |r| ==> r[i] in ps && Matches(r[i], category, color, tag)
    ensures forall i :: 0 <= i < |ps| ==> (ps[i] in r <==> Matches(ps[i], category, color, tag))
  {
    Filter(ps, MatchesFilters(category, color, tag))
  }

  /**
   * `allTags`: the wildcard, then every tag of every project once, in the
   * order the tags first appear.
   */
  function AllTags(ps: seq<Project>): (r: seq<string>)
    ensures |r| >= 1 && r[0] == All
    ensures NoDup(r[1..])
    ensures forall i, k :: 0 <= i < |ps| && 0 <= k < |TagsOf(ps[i])| ==> TagsOf(ps[i])[k] in r[1..]
    ensures forall m :: 1 <= m < |r| ==> exists i :: 0 <= i < |ps| && r[m] in TagsOf(ps[i])
  {
    var tags := Dedup(FlatMap(ps, TagsOf));
    var r := [All] + tags;
    assert r[1..] == tags;
    assert forall m :: 1 <= m < |r| ==> r[m] == tags[m - 1];
    r
  }

  /** The reset button is drawn while any filter is set. */
  predicate ResetShown(category: string, color: string, tag: string) {
    category != All || color != All || tag != All
  }

  // Card rendering

  /** The colour family a palette is drawn in. */
  datatype Tone = BlueTone | AmberTone | PurpleTone | EmeraldTone | SlateTone

  /** The `switch` of `getColorClass` and `getThemeColor`: unknown or missing palettes are slate. */
  function PaletteTone(palette: Option<string>): (r: Tone)
    ensures r == SlateTone <==> palette.None? || palette.value !in Palettes
  {
    if palette == Some(Blue) then BlueTone
    else if palette == Some(Gold) then AmberTone
    else if palette == Some(Purple) then PurpleTone
    else if palette == Some(Green) then EmeraldTone
    else SlateTone
  }

  /**
   * The palette dot beside a card's title, drawn only for a truthy palette:
   * gold, blue and purple have their own tone, and every other value,
   * green included, is emerald.
   */
  function CardDotTone(palette: Option<string>): (r: Option<Tone>)
    ensures r.None? <==> palette.None? || palette.value == ""
    ensures r.Some? ==> r.value != SlateTone
  {
    if palette.None? || palette.value == "" then None
    else if palette.value == Gold then Some(AmberTone)
    else if palette.value == Blue then Some(BlueTone)
    else if palette.value == Purple then Some(PurpleTone)
    else Some(EmeraldTone)
  }

  /**
   * A palette outside the four gets the same dot as green, although its card
   * border and badge are slate while green's are emerald.
   */
  lemma UnknownPaletteDotLooksGreen(palette: string)
    requires palette != "" && palette !in Palettes
    ensures CardDotTone(Some(palette)) == CardDotTone(Some(Green)) == Some(EmeraldTone)
    ensures PaletteTone(Some(palette)) == SlateTone && PaletteTone(Some(Green)) == EmeraldTone
  {
  }

  /** The dot's tone is the border and badge tone for the four palettes. */
  lemma CardDotAgreesWithTone(palette: string)
    requires palette in Palettes
    ensures CardDotTone(Some(palette)) == Some(PaletteTone(Some(palette)))
  {
  }

  /** The card border classes for a tone, written as the fixed prefix and the rest. */
  function BorderClass(t: Tone): string {
    match t
    case BlueTone => "border-" + "blue-500/50 hover:border-blue-500"
    case AmberTone => "border-" + "amber-500/50 hover:border-amber-500"
    case PurpleTone => "border-" + "purple-500/50 hover:border-purple-500"
    case EmeraldTone => "border-" + "emerald-500/50 hover:border-emerald-500"
    case SlateTone => "border-" + "slate-800 hover:border-amber-500/50"
  }

  /** The classes of the palette badge in the project detail view, for a tone, written as the fixed prefix and the rest. */
  function ThemeClass(t: Tone): string {
    match t
    case BlueTone => "text-" + "blue-500 bg-blue-500/10"
    case AmberTone => "text-" + "amber-500 bg-amber-500/10"
    case PurpleTone => "text-" + "purple-500 bg-purple-500/10"
    case EmeraldTone => "text-" + "emerald-500 bg-emerald-500/10"
    case SlateTone => "text-" + "slate-400 bg-slate-400/10"
  }

  /** `getColorClass(palette)`. */
  function ColorClass(palette: Option<string>): (r: string)
    ensures |r| > 7 && r[..7] == "border-" && r[7] == ToneInitial(PaletteTone(palette))
  {
    BorderClassNamesTone(PaletteTone(palette));
    BorderClass(PaletteTone(palette))
  }

  /** `getThemeColor(palette)`. */
  function ThemeColor(palette: Option<string>): (r: string)
    ensures |r| > 5 && r[..5] == "text-" && r[5] == ToneInitial(PaletteTone(palette))
  {
    ThemeClassNamesTone(PaletteTone(palette));
    ThemeClass(PaletteTone(palette))
  }

  /** `tags?.slice(0, limit)`: the chips a card shows. */
  function ShownTags(p: Project, limit: nat): (r: seq<string>)
    ensures r <= TagsOf(p)
    ensures |r| == if |TagsOf(p)| < limit then |TagsOf(p)| else limit
  {
    var tags := TagsOf(p);
    if |tags| < limit then tags else tags[..limit]
  }

  /** The `+n` marker after the first three chips, drawn when a card has more than three tags. */
  function Overflow(p: Project): (r: Option<nat>)
    ensures r.Some? <==> |TagsOf(p)| > 3
    ensures r.Some? ==> |ShownTags(p, 3)| + r.value == |TagsOf(p)| && r.value > 0
  {
    var n := |TagsOf(p)|;
    if n > 3 then Some(n - 3) else None
  }

  class PortfolioView {
    var categoryFilter: string
    var colorFilter: string
    var tagFilter: string
    var projects: seq<Project>
    var isLoading: bool

    /** The cards on screen. */
    function Visible(): seq<Project>
      reads this
    {
      FilteredProjects(projects, categoryFilter, colorFilter, tagFilter)
    }

    /** The first render: every filter at the wildcard, nothing loaded yet. */
    constructor ()
      ensures categoryFilter == All && colorFilter == All && tagFilter == All
      ensures projects == [] && isLoading
      ensures Visible() == []
    {
      categoryFilter := All;
      colorFilter := All;
      tagFilter := All;
      projects := [];
      isLoading := true;
    }

    /** `loadProjects`, run on mount and on every `projectsUpdated` event. */
    method LoadProjects(db: DatabaseService)
      modifies this`projects, this`isLoading
      ensures projects == db.GetProjects() && !isLoading
    {
      isLoading := true;
      var data := db.GetProjects();
      projects := data;
      isLoading := false;
    }

    method SelectCategory(category: string)
      modifies this`categoryFilter
      ensures categoryFilter == category
    {
      categoryFilter := category;
    }

    method SelectColor(color: string)
      modifies this`colorFilter
      ensures colorFilter == color
    {
      colorFilter := color;
    }

    method SelectTag(tag: string)
      modifies this`tagFilter
      ensures tagFilter == tag
    {
      tagFilter := tag;
    }

    /** `resetFilters`: afterwards every project is shown and the button disappears. */
    method ResetFilters()
      modifies this`categoryFilter, this`colorFilter, this`tagFilter
      ensures categoryFilter == All && colorFilter == All && tagFilter == All
      ensures Visible() == projects
      ensures !ResetShown(categoryFilter, colorFilter, tagFilter)
    {
      categoryFilter := All;
      colorFilter := All;
      tagFilter := All;
      NoFilterShowsAll(projects);
    }
  }

  // Lemmas

  /** The grid keeps the store's order: it is a subsequence of the projects. */
  lemma FilteredKeepsOrder(ps: seq<Project>, category: string, color: string, tag: string)
    ensures IsSubseq(FilteredProjects(ps, category, color, tag), ps)
  {
    FilterIsSubseq(ps, MatchesFilters(category, color, tag));
  }

  /** A matching project at the head of the list heads the grid. */
  lemma MatchingHeadLeads(ps: seq<Project>, category: string, color: string, tag: string)
    requires ps != [] && Matches(ps[0], category, color, tag)
    ensures var r := FilteredProjects(ps, category, color, tag); r != [] && r[0] == ps[0]
  {
  }

  /** With every filter at the wildcard the grid is the whole list. */
  lemma NoFilterShowsAll(ps: seq<Project>)
    ensures FilteredProjects(ps, All, All, All) == ps
  {
    FilterKeepsAll(ps, MatchesFilters(All, All, All));
  }

  /** Setting a filter that was at the wildcard never adds cards. */
  lemma NarrowingNeverGrows(ps: seq<Project>, category: string, color: string, tag: string)
    ensures |FilteredProjects(ps, category, color, tag)| <= |FilteredProjects(ps, All, color, tag)|
    ensures |FilteredProjects(ps, category, color, tag)| <= |FilteredProjects(ps, category, All, tag)|
    ensures |FilteredProjects(ps, category, color, tag)| <= |FilteredProjects(ps, category, color, All)|
  {
    FilterMonotone(ps, MatchesFilters(category, color, tag), MatchesFilters(All, color, tag));
    FilterMonotone(ps, MatchesFilters(category, color, tag), MatchesFilters(category, All, tag));
    FilterMonotone(ps, MatchesFilters(category, color, tag), MatchesFilters(category, color, All));
  }

  /** Every tag button, with the other two filters at the wildcard, shows at least one card. */
  lemma TagButtonsNeverEmpty(ps: seq<Project>, m: nat)
    requires m < |AllTags(ps)|
    requires ps != []
    ensures FilteredProjects(ps, All, All, AllTags(ps)[m]) != []
  {
    var r := AllTags(ps);
    var tag := r[m];
    var i: nat := 0;
    if m >= 1 {
      i :| i < |ps| && tag in TagsOf(ps[i]);
    }
    assert Matches(ps[i], All, All, tag);
    assert ps[i] in FilteredProjects(ps, All, All, tag);
  }

  /** The tag buttons after the wildcard come in the order the tags first appear across the projects. */
  lemma AllTagsInFirstOccurrenceOrder(ps: seq<Project>)
    ensures InFirstOccurrenceOrder(AllTags(ps)[1..], FlatMap(ps, TagsOf))
  {
    DedupFirstOccurrenceOrder(FlatMap(ps, TagsOf));
    assert AllTags(ps)[1..] == Dedup(FlatMap(ps, TagsOf));
  }

  /**
   * The set removes duplicate tags but not a tag spelled like the wildcard:
   * such a tag yields a second wildcard button, and choosing it filters nothing.
   */
  lemma WildcardTagRepeats(ps: seq<Project>, i: nat)
    requires i < |ps| && All in TagsOf(ps[i])
    ensures All in AllTags(ps)[1..]
    ensures FilteredProjects(ps, All, All, All) == ps
  {
    var k :| 0 <= k < |TagsOf(ps[i])| && TagsOf(ps[i])[k] == All;
    NoFilterShowsAll(ps);
  }

  /**
   * The four palettes are drawn in four different tones, none of them slate;
   * every other value, and a missing palette, is slate.
   */
  lemma PaletteTonesDistinct()
    ensures forall a, b :: a in Palettes && b in Palettes && a != b ==> PaletteTone(Some(a)) != PaletteTone(Some(b))
    ensures forall p :: PaletteTone(p) != SlateTone <==> p.Some? && p.value in Palettes
  {
  }

  /** The first letter of a tone's colour name. */
  function ToneInitial(t: Tone): char {
    match t
    case BlueTone => 'b'
    case AmberTone => 'a'
    case PurpleTone => 'p'
    case EmeraldTone => 'e'
    case SlateTone => 's'
  }

  /** A tone's border class names its colour right after the prefix `border-`. */
  lemma BorderClassNamesTone(t: Tone)
    ensures |BorderClass(t)| > 7 && BorderClass(t)[7] == ToneInitial(t)
  {
  }

  /** A tone's badge class names its colour right after the prefix `text-`. */
  lemma ThemeClassNamesTone(t: Tone)
    ensures |ThemeClass(t)| > 5 && ThemeClass(t)[5] == ToneInitial(t)
  {
  }

  /** Different tones have different border classes and different badge classes. */
  lemma ToneClassesDistinct(a: Tone, b: Tone)
    requires a != b
    ensures BorderClass(a) != BorderClass(b) && ThemeClass(a) != ThemeClass(b)
  {
    BorderClassNamesTone(a);
    BorderClassNamesTone(b);
    ThemeClassNamesTone(a);
    ThemeClassNamesTone(b);
  }

  /**
   * `getColorClass` and `getThemeColor` give each palette its own classes,
   * different from the default every other value receives.
   */
  lemma PaletteClassesDistinct(a: Option<string>, b: Option<string>)
    requires a.Some? && a.value in Palettes
    requires a != b
    ensures ColorClass(a) != ColorClass(b) && ThemeColor(a) != ThemeColor(b)
  {
    PaletteTonesDistinct();
    ToneClassesDistinct(PaletteTone(a), PaletteTone(b));
  }
}
