/** An abstract URL: everything before the query, plus the ordered list of
    query items. Foundation's parsing and percent-encoding are not modelled;
    names and values are carried verbatim. */
module Urls {
  import opened Common

  datatype QueryItem = QueryItem(name: string, value: string)

  datatype Url = Url(base: string, query: seq<QueryItem>)

  /** `url.appending(queryItems:)`: the base is kept and the items follow
      whatever query the URL already had. */
  function AppendingQueryItems(u: Url, items: seq<QueryItem>): (r: Url)
    ensures r.base == u.base
    ensures |r.query| == |u.query| + |items|
    ensures r.query[..|u.query|] == u.query && r.query[|u.query|..] == items
  {
    Url(u.base, u.query + items)
  }

  /** The value of the first query item called `name`, if any. */
  function QueryValue(u: Url, name: string): (r: Option<string>)
    ensures r.None? <==> forall i :: 0 <= i < |u.query| ==> u.query[i].name != name
    ensures r.Some? ==> exists i :: 0 <= i < |u.query| && u.query[i] == QueryItem(name, r.value)
  {
    FirstValue(u.query, name)
  }

  function FirstValue(items: seq<QueryItem>, name: string): (r: Option<string>)
    ensures r.None? <==> forall i :: 0 <= i < |items| ==> items[i].name != name
    ensures r.Some? ==> exists i :: 0 <= i < |items| && items[i] == QueryItem(name, r.value)
  {
    if items == [] then None
    else if items[0].name == name then Some(items[0].value)
    else
      var r := FirstValue(items[1..], name);
      assert r.Some? ==> exists i :: 0 <= i < |items[1..]| && items[1..][i] == QueryItem(name, r.value);
      assert forall i :: 1 <= i < |items| ==> items[i] == items[1..][i - 1];
      r
  }

  lemma {:induction false} FirstValueAppend(items: seq<QueryItem>, more: seq<QueryItem>, name: string)
    requires forall i :: 0 <= i < |items| ==> items[i].name != name
    ensures FirstValue(items + more, name) == FirstValue(more, name)
  {
    if items != [] {
      var all := items + more;
      assert all[0].name != name && all[1..] == items[1..] + more;
      assert FirstValue(all, name) == FirstValue(all[1..], name);
      FirstValueAppend(items[1..], more, name);
    } else {
      assert items + more == more;
    }
  }

  /** When exactly one item carries a name, that item's value is the one
      read back. */
  lemma OnlyItemReadsBack(u: Url, k: nat)
    requires k < |u.query|
    requires forall i :: 0 <= i < |u.query| && i != k ==> u.query[i].name != u.query[k].name
    ensures QueryValue(u, u.query[k].name) == Some(u.query[k].value)
  {
  }

  /** Appending an item to a URL that has no item of that name makes the
      item readable back from the URL. */
  lemma AppendedItemReadsBack(u: Url, name: string, value: string)
    requires QueryValue(u, name).None?
    ensures QueryValue(AppendingQueryItems(u, [QueryItem(name, value)]), name) == Some(value)
  {
    FirstValueAppend(u.query, [QueryItem(name, value)], name);
  }

  /** The URL as text: `base?name=value&name=value`, or `base` alone when
      there is no query. */
  function Text(u: Url): string {
    if u.query == [] then u.base else u.base + "?" + QueryText(u.query)
  }

  function QueryText(items: seq<QueryItem>): string
    decreases |items|
  {
    if items == [] then ""
    else if |items| == 1 then items[0].name + "=" + items[0].value
    else items[0].name + "=" + items[0].value + "&" + QueryText(items[1..])
  }
}
