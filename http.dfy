/** The outside world the plugin talks to, as abstract collaborators: URLs
    as descriptors (an address and ordered query parameters, the input of
    add_query_arg), transport responses, and the WordPress string
    functions the core calls but does not define. */
module Http {
  import opened Common
  import opened Php
  import Text

  /** A request address: everything before the query string, and the
      query parameters in the order they are added. */
  datatype Url = Url(address: string, params: seq<(string, string)>)

  /** The value of the first parameter named k. */
  function ParamOf(ps: seq<(string, string)>, k: string): (r: Option<string>)
    ensures r.None? <==> forall i :: 0 <= i < |ps| ==> ps[i].0 != k
    ensures r.Some? ==> exists i :: 0 <= i < |ps| && ps[i] == (k, r.value)
  {
    if ps == [] then None
    else if ps[0].0 == k then Some(ps[0].1)
    else
      var r := ParamOf(ps[1..], k);
      assert r.Some? ==> ps[1..] != [] && exists i :: 1 <= i < |ps| && ps[i] == (k, r.value) by {
        if r.Some? {
          var i :| 0 <= i < |ps[1..]| && ps[1..][i] == (k, r.value);
          assert ps[i + 1] == ps[1..][i];
        }
      }
      r
  }

  /** `$params[k] = v` on a string-keyed array: an existing key keeps its
      place and takes the new value, a new key is appended. */
  function SetParam(ps: seq<(string, string)>, k: string, v: string): (r: seq<(string, string)>)
    ensures |r| == |ps| || r == ps + [(k, v)]
  {
    if ps == [] then [(k, v)]
    else if ps[0].0 == k then [(k, v)] + ps[1..]
    else [ps[0]] + SetParam(ps[1..], k, v)
  }

  lemma {:induction false} ParamOfSetSame(ps: seq<(string, string)>, k: string, v: string)
    ensures ParamOf(SetParam(ps, k, v), k) == Some(v)
  {
    if ps != [] && ps[0].0 != k {
      ParamOfSetSame(ps[1..], k, v);
    }
  }

  lemma {:induction false} ParamOfSetOther(ps: seq<(string, string)>, k: string, v: string, k': string)
    requires k' != k
    ensures ParamOf(SetParam(ps, k, v), k') == ParamOf(ps, k')
  {
    if ps != [] && ps[0].0 != k {
      ParamOfSetOther(ps[1..], k, v, k');
    }
  }

  /** What the transport hands back: a transport error (WP_Error from
      wp_remote_get), or a status code, the body and the body decoded as
      JSON (None when json_decode reports an error). */
  datatype Response =
    | Failed(error: WpError)
    | Reply(code: int, body: string, json: Option<Val>)

  /** The network: the response each request gets. */
  type Net = Url -> Response

  /** The answer to a HEAD request: a transport error, or a status code
      and the Content-Type header. */
  datatype Head = HeadFailed | HeadReply(status: int, contentType: string)

  /** The check made before an image is downloaded: HTTP 200 and a
      Content-Type that starts with "image/" in any letter case. */
  predicate ImageHead(h: Head) {
    h.HeadReply? && h.status == 200 && Text.StartsWith(Text.ToLower(h.contentType), "image/")
  }

  /** The media library: the HEAD answer for a URL, the attachment that
      download_url plus media_handle_sideload make of a URL, and the one
      made of the API image (product id, image id); none when the
      download or the sideload fails. */
  datatype Media = Media(
    head: string -> Head,
    sideload: string -> Option<int>,
    sideloadApiImage: (int, int) -> Option<int>)

  /** WordPress and PHP string functions the core calls but does not
      define; deterministic and otherwise unknown. */
  datatype Wp = Wp(
    sanitizeTitle: string -> string,
    stripAllTags: string -> string,
    md5: string -> string,
    escUrlRaw: string -> string,
    rawUrlEncode: string -> string)
}
