/**
 * What the migration code sees of the host platform: property values, the
 * three kinds of content node, the id/key stores of the content, media and
 * member services, and the service context handed to every transform.
 */
module Platform {
  import opened Wrappers
  import Text
  import opened Guids
  import opened Json

  /** A property value: null, a string, or a number stored as such. */
  datatype Value = VNull | VStr(s: string) | VInt(i: int)

  /** `value?.ToString()`. */
  function ValueText(v: Value): (r: Option<string>)
    ensures r.None? <==> v.VNull?
  {
    match v
    case VNull => None
    case VStr(s) => Some(s)
    case VInt(i) => Some(Text.IntToString(i))
  }

  /** `ContentBaseType`: the service a node belongs to. */
  datatype BaseType = Document | Media | Member

  /** Lower-case letters only: the shape of `type.ToString().ToLowerInvariant()`. */
  predicate IsKindName(s: string)
  {
    |s| > 0 && forall i :: 0 <= i < |s| ==> 'a' <= s[i] <= 'z'
  }

  /** `type.ToString().ToLowerInvariant()`. */
  function TypeName(t: BaseType): (r: string)
    ensures IsKindName(r)
  {
    match t
    case Document => "document"
    case Media => "media"
    case Member => "member"
  }

  /** The nodes of one service, by integer id and by guid key. */
  datatype Store = Store(keyOf: map<int, Guid>, idOf: map<Guid, int>)

  /** The two indexes of a store describe the same nodes. */
  predicate Consistent(st: Store)
  {
    (forall id :: id in st.keyOf ==> st.keyOf[id] in st.idOf && st.idOf[st.keyOf[id]] == id)
    && (forall g :: g in st.idOf ==> st.idOf[g] in st.keyOf && st.keyOf[st.idOf[g]] == g)
  }

  datatype Repository = Repository(documents: Store, media: Store, members: Store)

  function StoreOf(repo: Repository, t: BaseType): Store
  {
    match t
    case Document => repo.documents
    case Media => repo.media
    case Member => repo.members
  }

  predicate ConsistentRepository(repo: Repository)
  {
    Consistent(repo.documents) && Consistent(repo.media) && Consistent(repo.members)
  }

  /**
   * The `ServiceContext`: the node stores, Umbraco's `Udi.TryParse` (a
   * library call whose grammar is not part of this model) and Newtonsoft's
   * `JsonConvert.DeserializeObject`, which yields `Ok(None)` for the text
   * "null" and `Err` for malformed text.
   */
  datatype Services = Services(
    repo: Repository,
    udiParses: string -> bool,
    parseJson: string -> Result<Option<Json>>)
}
