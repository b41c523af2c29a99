/**
 * The query-key builders of the data layer.  A key is an array whose first
 * element is the collection name; non-exact invalidation with the key
 * `[collection]` reaches every query whose key starts with it.
 */
module QueryKeys {
  import opened Wrappers

  /** PocketBase query options; `None` is an option left out. */
  datatype QueryOptions = QueryOptions(page: Option<int>, perPage: Option<int>, filter: Option<string>,
                                       sort: Option<string>, expand: Option<string>)

  const NoOptions := QueryOptions(None, None, None, None, None)

  /** One element of a key array. */
  datatype KeyPart =
    | Str(s: string)
    | Undefined
    | ListParams(page: int, perPage: int, filter: string, sort: string, expand: string)
    | FilterParam(filter: string)
    | RawOptions(options: QueryOptions)

  type Key = seq<KeyPart>

  /** `value || ''`: a missing or empty string becomes ''. */
  function OrEmpty(value: Option<string>): (r: string)
    ensures value.Some? ==> r == value.value
    ensures value.None? ==> r == ""
  {
    if value.Some? then value.value else ""
  }

  function OrDefault(value: Option<int>, default: int): int {
    if value.Some? then value.value else default
  }

  function CollectionKey(collection: string): (k: Key)
    ensures |k| == 1 && k[0] == Str(collection)
  {
    [Str(collection)]
  }

  /** `list`: the options that affect the result, with page 1, perPage 50 and '' filled in. */
  function ListKey(collection: string, options: QueryOptions): (k: Key)
    ensures CollectionKey(collection) <= k && |k| == 3 && k[1] == Str("list")
    ensures k[2].ListParams? && k[2].page == OrDefault(options.page, 1) && k[2].perPage == OrDefault(options.perPage, 50)
  {
    [Str(collection), Str("list"),
     ListParams(OrDefault(options.page, 1), OrDefault(options.perPage, 50),
                OrEmpty(options.filter), OrEmpty(options.sort), OrEmpty(options.expand))]
  }

  function DetailKey(collection: string, id: string): (k: Key)
    ensures CollectionKey(collection) <= k && |k| == 3 && k[1] == Str("detail") && k[2] == Str(id)
  {
    [Str(collection), Str("detail"), Str(id)]
  }

  function ListAllKey(collection: string): (k: Key)
    ensures CollectionKey(collection) <= k && |k| == 2
  {
    [Str(collection), Str("list")]
  }

  function ListByFilterKey(collection: string, filter: string): (k: Key)
    ensures ListAllKey(collection) <= k && |k| == 3
  {
    [Str(collection), Str("list"), FilterParam(filter)]
  }

  /** `search` keeps the options as given, without defaults. */
  function SearchKey(collection: string, query: string, options: QueryOptions): (k: Key)
    ensures CollectionKey(collection) <= k && |k| == 4 && k[3] == RawOptions(options)
  {
    [Str(collection), Str("search"), Str(query), RawOptions(options)]
  }

  function CountKey(collection: string, filter: Option<string>): (k: Key)
    ensures CollectionKey(collection) <= k && |k| == 3 && k[2] == Str(OrEmpty(filter))
  {
    [Str(collection), Str("count"), Str(OrEmpty(filter))]
  }

  function RelatedKey(collection: string, id: string, relation: string, options: QueryOptions): (k: Key)
    ensures CollectionKey(collection) <= k && |k| == 5
  {
    [Str(collection), Str("related"), Str(id), Str(relation), RawOptions(options)]
  }

  function StaffMemberByUserKey(userId: Option<string>): (k: Key)
    ensures CollectionKey("staff_members") <= k && |k| == 3
  {
    [Str("staff_members"), Str("by_user"), if userId.Some? then Str(userId.value) else Undefined]
  }

  function CurrentUserStaffMemberKey(): (k: Key)
    ensures CollectionKey("staff_members") <= k && |k| == 2
  {
    [Str("staff_members"), Str("current_user")]
  }

  /** The filter handed to `invalidateQueries`. */
  datatype Pattern = Pattern(queryKey: Key, exact: bool)

  /**
   * An exact pattern matches its own key only; a non-exact one every key it
   * is a prefix of.  TanStack Query's non-exact match is a partial deep
   * match, in which an object element of the pattern also matches an
   * object that holds more properties; the prefix test here compares
   * elements for equality.  The two agree when the pattern's elements are
   * strings, and every pattern stated below (`CollectionInvalidationPattern`
   * and the `ListAllKey` patterns) holds only `Str` elements, so the lemmas
   * hold for either reading.
   */
  predicate Matches(p: Pattern, key: Key) {
    if p.exact then key == p.queryKey else p.queryKey <= key
  }

  function CollectionInvalidationPattern(collection: string): (p: Pattern)
    ensures !p.exact && p.queryKey == CollectionKey(collection)
  {
    Pattern(CollectionKey(collection), false)
  }

  /** Every key of a collection: the builders above with that collection. */
  ghost predicate KeyOf(collection: string, key: Key) {
    (exists o :: key == ListKey(collection, o))
    || (exists id :: key == DetailKey(collection, id))
    || key == ListAllKey(collection)
    || (exists f :: key == ListByFilterKey(collection, f))
    || (exists q, o :: key == SearchKey(collection, q, o))
    || (exists f :: key == CountKey(collection, f))
    || (exists id, rel, o :: key == RelatedKey(collection, id, rel, o))
    || (collection == "staff_members" && ((exists u :: key == StaffMemberByUserKey(u)) || key == CurrentUserStaffMemberKey()))
  }

  /** Invalidating a collection reaches exactly its own keys among the builders' keys. */
  lemma InvalidationReachesCollection(collection: string, other: string, key: Key)
    requires KeyOf(other, key)
    ensures Matches(CollectionInvalidationPattern(collection), key) <==> collection == other
  {
    assert key[0] == Str(other);
  }

  /** `list(c, {})` and `list(c, {page: 1, perPage: 50})` are the same key, as is an empty filter. */
  lemma ListDefaults(collection: string)
    ensures ListKey(collection, NoOptions) == ListKey(collection, QueryOptions(Some(1), Some(50), None, None, None))
    ensures ListKey(collection, NoOptions) == ListKey(collection, QueryOptions(None, None, Some(""), Some(""), Some("")))
  {
  }

  /** Detail keys for different ids, or collections, differ. */
  lemma DetailInjective(c1: string, id1: string, c2: string, id2: string)
    ensures DetailKey(c1, id1) == DetailKey(c2, id2) <==> c1 == c2 && id1 == id2
  {
    if DetailKey(c1, id1) == DetailKey(c2, id2) {
      assert DetailKey(c1, id1)[0] == DetailKey(c2, id2)[0];
      assert DetailKey(c1, id1)[2] == DetailKey(c2, id2)[2];
    }
  }

  lemma CountDefault(collection: string)
    ensures CountKey(collection, None) == CountKey(collection, Some(""))
  {
  }

  /** A list key is never a detail key: their second elements are 'list' and 'detail'. */
  lemma ListIsNotDetail(c1: string, o: QueryOptions, c2: string, id: string)
    ensures ListKey(c1, o) != DetailKey(c2, id)
  {
    assert ListKey(c1, o)[1] != DetailKey(c2, id)[1];
  }

  /** Non-exact invalidation of `listAll` reaches every list query of the collection. */
  lemma ListAllReachesLists(collection: string, o: QueryOptions, f: string)
    ensures Matches(Pattern(ListAllKey(collection), false), ListKey(collection, o))
    ensures Matches(Pattern(ListAllKey(collection), false), ListByFilterKey(collection, f))
    ensures !Matches(Pattern(ListAllKey(collection), false), DetailKey(collection, f))
  {
    assert DetailKey(collection, f)[1] != ListAllKey(collection)[1];
  }
}
