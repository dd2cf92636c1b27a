/** `Assets::get_asset_url`: the plugin's base URL followed by the asset
    path with its leading slashes removed (`ltrim($path, '/')`). */
module Assets {

  /** `k` slashes. */
  function Slashes(k: nat): (s: string)
    ensures |s| == k
    ensures forall i :: 0 <= i < k ==> s[i] == '/'
  {
    if k == 0 then [] else ['/'] + Slashes(k - 1)
  }

  /** `ltrim($path, '/')`: the path after its run of leading slashes. */
  function TrimLeadingSlashes(path: string): (rest: string)
    ensures |rest| <= |path|
    ensures path == Slashes(|path| - |rest|) + rest
    ensures rest == [] || rest[0] != '/'
  {
    if path != [] && path[0] == '/' then TrimLeadingSlashes(path[1..]) else path
  }

  /** `get_asset_url($path)`, with `MY_ELEMENTOR_WIDGET_URL` as `baseUrl`. */
  function GetAssetUrl(baseUrl: string, path: string): (url: string)
    ensures |baseUrl| <= |url| && url[..|baseUrl|] == baseUrl
    ensures var tail := url[|baseUrl|..];
            && (tail == [] || tail[0] != '/')
            && |tail| <= |path|
            && path == Slashes(|path| - |tail|) + tail
  {
    var url := baseUrl + TrimLeadingSlashes(path);
    assert url[|baseUrl|..] == TrimLeadingSlashes(path);
    url
  }

  /** Prefixing any number of slashes changes nothing. */
  lemma {:induction false} TrimIgnoresAddedSlashes(k: nat, path: string)
    ensures TrimLeadingSlashes(Slashes(k) + path) == TrimLeadingSlashes(path)
  {
    if k > 0 {
      assert (Slashes(k) + path)[0] == '/';
      assert (Slashes(k) + path)[1..] == Slashes(k - 1) + path;
      TrimIgnoresAddedSlashes(k - 1, path);
    } else {
      assert Slashes(k) + path == path;
    }
  }

  /** A path that does not start with `/` is kept whole: inner and trailing
      slashes survive. */
  lemma TrimKeepsUnslashedPath(path: string)
    requires path == [] || path[0] != '/'
    ensures TrimLeadingSlashes(path) == path
  {
  }

  /** Trimming twice is trimming once. */
  lemma TrimIdempotent(path: string)
    ensures TrimLeadingSlashes(TrimLeadingSlashes(path)) == TrimLeadingSlashes(path)
  {
  }

  /** The URL depends on the path only after its leading slashes:
      `"/x"`, `"//x"` and `"x"` give the same URL. */
  lemma AssetUrlIgnoresLeadingSlashes(baseUrl: string, k: nat, path: string)
    ensures GetAssetUrl(baseUrl, Slashes(k) + path) == GetAssetUrl(baseUrl, path)
  {
    TrimIgnoresAddedSlashes(k, path);
  }

  /** Concretely: `css/a/` is what remains of `//css/a/`. */
  lemma InnerAndTrailingSlashesKept(baseUrl: string, path: string)
    requires path == "//css/a/"
    ensures GetAssetUrl(baseUrl, path) == baseUrl + "css/a/"
  {
    assert path == Slashes(2) + "css/a/";
    TrimIgnoresAddedSlashes(2, "css/a/");
  }
}
