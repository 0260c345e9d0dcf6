/**
 * The records and enumerations shared by the store and the views
 * (types.ts), with the Arabic literals the code compares against.
 */
module Types {
  import opened Optional

  /** `SiteOrder['status']`: pending, generated, complete. */
  datatype OrderStatus = Pending | Generated | Completed

  /** The literal the code stores for each status. */
  function StatusLabel(s: OrderStatus): string {
    match s
    case Pending => "قيد الانتظار"
    case Generated => "تم التوليد"
    case Completed => "مكتمل"
  }

  /** The three stored literals tell the statuses apart, as the dashboard's comparisons rely on. */
  lemma StatusLabelInjective(a: OrderStatus, b: OrderStatus)
    ensures StatusLabel(a) == StatusLabel(b) <==> a == b
  {
    if a != b {
      assert StatusLabel(a)[0] != StatusLabel(b)[0];
    }
  }

  /** Position along the intended order pending, generated, complete. */
  function StatusRank(s: OrderStatus): nat {
    match s
    case Pending => 0
    case Generated => 1
    case Completed => 2
  }

  /** A portfolio entry. `colorPalette` and `tags` are optional fields. */
  datatype Project = Project(
    id: string,
    title: string,
    category: string,
    image: string,
    description: string,
    colorPalette: Option<string>,
    tags: Option<seq<string>>)

  /** `Omit<Project, 'id'>`: what a caller hands to `addProject`. */
  datatype ProjectDraft = ProjectDraft(
    title: string,
    category: string,
    image: string,
    description: string,
    colorPalette: Option<string>,
    tags: Option<seq<string>>)

  /** `{ ...draft, id }`. */
  function WithId(d: ProjectDraft, id: string): Project {
    Project(id, d.title, d.category, d.image, d.description, d.colorPalette, d.tags)
  }

  /** A customer's request and its fulfilment state. */
  datatype SiteOrder = SiteOrder(
    id: string,
    customerName: string,
    requirements: string,
    status: OrderStatus,
    date: string,
    price: Option<string>,
    htmlContent: Option<string>)

  /** `Omit<SiteOrder, 'id' | 'date' | 'status'>`: what a caller hands to `saveOrder`. */
  datatype OrderDraft = OrderDraft(
    customerName: string,
    requirements: string,
    price: Option<string>,
    htmlContent: Option<string>)

  datatype Role = User | Assistant

  /** A citation the assistant attached to a reply. */
  datatype Source = Source(uri: string, title: Option<string>)

  /** One chat turn; `sources` is the `data.sources` payload of an assistant reply. */
  datatype ChatMessage = ChatMessage(role: Role, content: string, sources: Option<seq<Source>>)

  /** The `AppStep` enumeration of the order funnel. */
  datatype AppStep = Idle | GatheringInfo | Agreement | NotifyingAdmin | Payment | Generating | Complete

  /** The "all" wildcard of the portfolio filters. */
  const All: string := "الكل"

  /** The three categories: stores, companies, personal. */
  const Stores: string := "متاجر"
  const Companies: string := "شركات"
  const Personal: string := "شخصي"

  /** The four palettes: blue, gold, purple, green. */
  const Blue: string := "أزرق"
  const Gold: string := "ذهبي"
  const Purple: string := "أرجواني"
  const Green: string := "أخضر"
}
