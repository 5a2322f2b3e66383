/**
 * Proxy selection (`get_proxy`). The HTTP request to the proxy-list service
 * and the JSON decoding are inputs: the decoded response is a `ListResponse`.
 * The loop takes the first item whose `ip` and `port` are both truthy and
 * builds `protocol://ip:port`; reading `protocols[0]` happens before that test,
 * so an item with an empty (or null) `protocols` list raises, and the
 * surrounding `except` turns every exception into "no proxy".
 */
module Proxy {
  import opened Wrappers

  /** The `protocols` field of a list item: absent, JSON null, or a list of names. */
  datatype Protocols = Missing | Null | Listed(names: seq<string>)

  /**
   * One element of the `data` array. `Record` is a JSON object (an absent key
   * or a null value of `ip`/`port` is `None`); `NonObject` is any other JSON
   * value, on which `item.get` raises.
   */
  datatype Item = Record(ip: Option<string>, port: Option<string>, protocols: Protocols) | NonObject

  /**
   * The `data` member of the decoded response: absent (read as `[]`), an
   * array, or `NullData` for null and for every other JSON value (a string,
   * number, boolean or object), all of which end in `None`: iterating them
   * raises, or yields nothing, or yields items without `.get`.
   */
  datatype DataField = Absent | NullData | Items(items: seq<Item>)

  /**
   * What the request and decoding produced: `Unreachable` covers a network
   * error, the 5-second timeout and a body that is not a JSON object.
   */
  datatype ListResponse = Unreachable | Decoded(data: DataField)

  /** The proxy dictionary handed to the HTTP layer: one URL for both schemes. */
  datatype Config = Config(http: string, https: string)

  /**
   * Python truthiness of an optional string field (`ip`, `port`): present and
   * non-empty. `Handler.UrlTruthy` is the same test on the handler's `url` value.
   */
  predicate NonEmpty(v: Option<string>) {
    v.Some? && v.value != ""
  }

  /** Evaluating the item's `ip`, `port` and `protocols[0]` raises. */
  predicate Raises(item: Item) {
    item.NonObject? || item.protocols.Null? || item.protocols == Listed([])
  }

  /** The item's `ip` and `port` are both truthy. */
  predicate Qualifies(item: Item) {
    item.Record? && NonEmpty(item.ip) && NonEmpty(item.port)
  }

  /** The loop stops at this item, by returning or by raising. */
  predicate Stops(item: Item) {
    Raises(item) || Qualifies(item)
  }

  /** `item.get('protocols', ['http'])[0]`. */
  function ProtocolOf(item: Item): (p: string)
    requires item.Record? && !Raises(item)
    ensures item.protocols.Missing? ==> p == "http"
    ensures item.protocols.Listed? ==> p == item.protocols.names[0]
  {
    match item.protocols
    case Missing => "http"
    case Listed(names) => names[0]
  }

  /** The proxy built from a qualifying item: `protocol://ip:port` for both schemes. */
  function ProxyFor(item: Item): (c: Config)
    requires Qualifies(item) && !Raises(item)
    ensures c.http == c.https == ProtocolOf(item) + "://" + item.ip.value + ":" + item.port.value
  {
    var url := ProtocolOf(item) + "://" + item.ip.value + ":" + item.port.value;
    Config(url, url)
  }

  /** What the loop over `items` returns, as a recursive definition. */
  function Select(items: seq<Item>): (r: Option<Config>)
    ensures r.Some? ==> r.value.http == r.value.https
  {
    if items == [] then None
    else if Raises(items[0]) then None
    else if Qualifies(items[0]) then Some(ProxyFor(items[0]))
    else Select(items[1..])
  }

  /** What `get_proxy` returns for a given response. */
  function Lookup(response: ListResponse): Option<Config> {
    match response
    case Unreachable => None
    case Decoded(Absent) => None
    case Decoded(NullData) => None
    case Decoded(Items(items)) => Select(items)
  }

  /** `get_proxy`: the linear search of the source, with its early returns. */
  method GetProxy(response: ListResponse) returns (proxy: Option<Config>)
    ensures proxy == Lookup(response)
  {
    if response.Unreachable? {
      return None;
    }
    var items: seq<Item>;
    match response.data {
      case Absent => items := [];
      case NullData => return None;
      case Items(xs) => items := xs;
    }
    var i := 0;
    while i < |items|
      invariant 0 <= i <= |items|
      invariant Select(items[i..]) == Select(items)
    {
      var item := items[i];
      assert items[i..][1..] == items[i + 1..];
      if item.NonObject? {
        return None;
      }
      var ip, port := item.ip, item.port;
      var protocol: string;
      match item.protocols {
        case Missing => protocol := "http";
        case Null => return None;
        case Listed(names) =>
          if names == [] {
            return None;
          }
          protocol := names[0];
      }
      if NonEmpty(ip) && NonEmpty(port) {
        var url := protocol + "://" + ip.value + ":" + port.value;
        return Some(Config(url, url));
      }
      i := i + 1;
    }
    return None;
  }

  /**
   * The search returns the proxy of item `k` exactly when item `k` qualifies
   * and no item before it, nor item `k` itself, stops the loop by raising or
   * qualifying first.
   */
  lemma {:induction false} SelectFindsFirstQualifying(items: seq<Item>, k: nat)
    requires k < |items| && Qualifies(items[k]) && !Raises(items[k])
    requires forall j :: 0 <= j < k ==> !Stops(items[j])
    ensures Select(items) == Some(ProxyFor(items[k]))
  {
    if k > 0 {
      assert !Stops(items[0]);
      forall j | 0 <= j < k - 1 ensures !Stops(items[1..][j]) {
        assert items[1..][j] == items[j + 1];
      }
      SelectFindsFirstQualifying(items[1..], k - 1);
    }
  }

  /**
   * Conversely, a proxy is returned only for an item that qualifies with
   * nothing before it stopping the loop; so `None` is returned exactly when
   * no such item exists.
   */
  lemma {:induction false} SelectOnlyFirstQualifying(items: seq<Item>)
    requires Select(items).Some?
    ensures exists k ::
              && 0 <= k < |items| && Qualifies(items[k]) && !Raises(items[k])
              && (forall j :: 0 <= j < k ==> !Stops(items[j]))
              && Select(items) == Some(ProxyFor(items[k]))
  {
    if !Qualifies(items[0]) {
      SelectOnlyFirstQualifying(items[1..]);
      var k :| 0 <= k < |items[1..]| && Qualifies(items[1..][k]) && !Raises(items[1..][k])
        && (forall j :: 0 <= j < k ==> !Stops(items[1..][j]))
        && Select(items[1..]) == Some(ProxyFor(items[1..][k]));
      assert forall j :: 1 <= j < k + 1 ==> items[j] == items[1..][j - 1];
      assert Qualifies(items[k + 1]);
    } else {
      assert Qualifies(items[0]);
    }
  }

  /**
   * An item whose `protocols` is an empty list, met before any qualifying
   * item, makes the whole lookup return `None`, even when later items (or
   * the item itself) have an ip and a port.
   */
  lemma {:induction false} EmptyProtocolsAbortSearch(items: seq<Item>, k: nat)
    requires k < |items| && items[k].Record? && items[k].protocols == Listed([])
    requires forall j :: 0 <= j < k ==> !Stops(items[j])
    ensures Select(items) == None
  {
    if k > 0 {
      forall j | 0 <= j < k - 1 ensures !Stops(items[1..][j]) {
        assert items[1..][j] == items[j + 1];
      }
      EmptyProtocolsAbortSearch(items[1..], k - 1);
    }
  }

  /** With no qualifying item at all, the lookup returns `None`. */
  lemma {:induction false} NoQualifyingItem(items: seq<Item>)
    requires forall k :: 0 <= k < |items| ==> !Qualifies(items[k])
    ensures Select(items) == None
  {
    if items != [] {
      forall k | 0 <= k < |items| - 1 ensures !Qualifies(items[1..][k]) {
        assert items[1..][k] == items[k + 1];
      }
      NoQualifyingItem(items[1..]);
    }
  }
}
