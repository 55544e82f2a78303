/** The filter controls: a functional state updater for the filter record, and
    the search box, which hands its raw value to the owner's `setSearch`. */
module TaskFilters {

  /** The record of filter keys (`category`, `priority`, `state`). */
  type Filter = map<string, string>

  /** What a React functional updater returns: the previous object itself, or a
      new object. Only a new object makes React re-render and re-run the effects
      that depend on the filter. */
  datatype Update<T> = Keep | Replace(value: T)

  function Apply<T>(prev: T, u: Update<T>): T
  {
    match u
    case Keep => prev
    case Replace(v) => v
  }

  /** The updater `handleFilterChange` passes to `setFilter`:
      `prevFilter[name] === value ? prevFilter : { ...prevFilter, [name]: value }`.
      An absent key is `undefined`, which never equals the (string) value. */
  function FilterUpdate(prev: Filter, name: string, value: string): (u: Update<Filter>)
    ensures u.Keep? <==> name in prev && prev[name] == value
  {
    if name in prev && prev[name] == value then Keep else Replace(prev[name := value])
  }

  /** Whichever object the updater returns, its contents are the previous filter
      with the named key set to the value: only that key changes, every other key
      keeps its value, and no key is dropped. */
  lemma FilterUpdateContents(prev: Filter, name: string, value: string)
    ensures var next := Apply(prev, FilterUpdate(prev, name, value));
      && name in next && next[name] == value
      && next.Keys == prev.Keys + {name}
      && (forall k :: k in prev && k != name ==> next[k] == prev[k])
  {
  }

  /** A second identical change returns the same object: the updater is idempotent. */
  lemma FilterUpdateIdempotent(prev: Filter, name: string, value: string)
    ensures var next := Apply(prev, FilterUpdate(prev, name, value));
      FilterUpdate(next, name, value) == Keep
  {
  }

  /** The state the controls drive in their owner. */
  datatype Controls = Controls(filter: Filter, search: string)

  /** A select change, through the updater. */
  function OnFilterChange(c: Controls, name: string, value: string): (r: Controls)
    ensures r.search == c.search
    ensures name in r.filter && r.filter[name] == value
    ensures r.filter.Keys == c.filter.Keys + {name}
    ensures forall k :: k in c.filter && k != name ==> r.filter[k] == c.filter[k]
    ensures name in c.filter && c.filter[name] == value ==> r == c
  {
    FilterUpdateContents(c.filter, name, value);
    c.(filter := Apply(c.filter, FilterUpdate(c.filter, name, value)))
  }

  /** A keystroke in the search box: `setSearch(e.target.value)`, untrimmed. */
  function OnSearchInput(c: Controls, input: string): (r: Controls)
    ensures r.search == input && r.filter == c.filter
  {
    c.(search := input)
  }
}
