/**
 * The two configuration fields the browser CLI reads from the `browser`
 * section of the user's configuration document. Reading the file is left to
 * the caller, which passes the decoded root dictionary (empty when the file is
 * missing or not a JSON object).
 */
module Config {
  import opened Wrappers
  import opened Json

  const DefaultControlUrl: string := "http://127.0.0.1:18791"

  datatype BrowserConfig = BrowserConfig(enabled: bool, controlUrl: string)

  /** `loadBrowserConfig`: control is enabled unless `browser.enabled` is the
      boolean false, and the URL is `browser.controlUrl` when that is a string. */
  function LoadBrowserConfig(root: Object): (c: BrowserConfig)
    ensures !c.enabled <==> "browser" in root && root["browser"].JObj?
                            && "enabled" in root["browser"].fields
                            && root["browser"].fields["enabled"] == JBool(false)
    ensures "browser" in root && root["browser"].JObj? && "controlUrl" in root["browser"].fields
            && root["browser"].fields["controlUrl"].JStr? ==>
              c.controlUrl == root["browser"].fields["controlUrl"].s
    ensures !("browser" in root && root["browser"].JObj? && "controlUrl" in root["browser"].fields
              && root["browser"].fields["controlUrl"].JStr?) ==>
              c.controlUrl == DefaultControlUrl
  {
    var browser := GetObject(root, "browser");
    var enabled := match browser
      case Some(b) => GetBool(b, "enabled").GetOr(true)
      case None => true;
    var url := match browser
      case Some(b) => GetString(b, "controlUrl").GetOr(DefaultControlUrl)
      case None => DefaultControlUrl;
    BrowserConfig(enabled, url)
  }

  /** A missing or unreadable configuration gives the defaults. */
  lemma DefaultsWhenMissing()
    ensures LoadBrowserConfig(map[]) == BrowserConfig(true, DefaultControlUrl)
  {
  }
}
