/** The plugin's class autoloader: a class of the plugin's namespace is
    looked for under `includes/` in a file named after the class, and is
    loaded only if that file exists. */
module Autoloader {

  const Namespace: string := "My_Elementor_Widget"

  /** `__NAMESPACE__ . '\\'`. */
  const ClassPrefix: string := Namespace + "\\"

  /** What `autoload` does with a class name. */
  datatype Outcome = NotPluginClass | NotFound(path: string) | Loaded(path: string)

  /** `strncmp($prefix, $class, strlen($prefix)) === 0`: a name shorter than
      the prefix never matches. */
  predicate IsPluginClass(className: string) {
    |ClassPrefix| <= |className| && className[..|ClassPrefix|] == ClassPrefix
  }

  /** `str_replace('_', '-', $s)`. */
  function Hyphenate(s: string): (r: string)
    ensures |r| == |s|
    ensures forall i :: 0 <= i < |s| ==> r[i] == if s[i] == '_' then '-' else s[i]
  {
    if s == [] then [] else [if s[0] == '_' then '-' else s[0]] + Hyphenate(s[1..])
  }

  function LowerChar(c: char): char {
    if 'A' <= c <= 'Z' then (c as int + 32) as char else c
  }

  /** `strtolower($s)`: ASCII letters only. */
  function ToLower(s: string): (r: string)
    ensures |r| == |s|
    ensures forall i :: 0 <= i < |s| ==> r[i] == LowerChar(s[i])
  {
    if s == [] then [] else [LowerChar(s[0])] + ToLower(s[1..])
  }

  /** The file name a relative class name maps to. */
  function FileName(relative: string): string {
    "class-" + ToLower(Hyphenate(relative)) + ".php"
  }

  /** `autoload($class)`, with `MY_ELEMENTOR_WIDGET_PATH` as `basePath` and
      the files `file_exists` finds as `existing`. */
  function Autoload(className: string, basePath: string, existing: set<string>): (o: Outcome)
    ensures o.NotPluginClass? <==> !IsPluginClass(className)
    ensures !o.NotPluginClass? ==> o.path == basePath + "includes/" + FileName(className[|ClassPrefix|..])
    ensures o.Loaded? <==> IsPluginClass(className) && o.path in existing
  {
    if !IsPluginClass(className) then NotPluginClass
    else
      var file := basePath + "includes/" + FileName(className[|ClassPrefix|..]);
      if file in existing then Loaded(file) else NotFound(file)
  }

  /** The file name is "class-", the relative name with `_` turned into `-`
      and lower-cased, then ".php": ten characters longer, and without `_`. */
  lemma FileNameShape(relative: string)
    ensures var f := FileName(relative);
            && |f| == |relative| + 10
            && f[..6] == "class-" && f[|f| - 4..] == ".php"
            && (forall i :: 0 <= i < |relative| ==>
                  f[6 + i] == LowerChar(if relative[i] == '_' then '-' else relative[i]))
            && (forall i :: 0 <= i < |f| ==> f[i] != '_')
  {
  }

  /** A class of the plugin's namespace is looked for at
      `includes/<FileName(relative)>` and loaded exactly when that file exists. */
  lemma PluginClassPath(relative: string, basePath: string, existing: set<string>)
    ensures var path := basePath + "includes/" + FileName(relative);
            Autoload(ClassPrefix + relative, basePath, existing)
              == if path in existing then Loaded(path) else NotFound(path)
  {
  }

  /** `Ajax_Handler` maps to `class-ajax-handler.php`. */
  lemma AjaxHandlerFileName(relative: string)
    requires relative == "Ajax_Handler"
    ensures FileName(relative) == "class-ajax-handler.php"
  {
  }

  /** `My_Custom_Widget` maps to `class-my-custom-widget.php`. */
  lemma CustomWidgetFileName(relative: string)
    requires relative == "My_Custom_Widget"
    ensures FileName(relative) == "class-my-custom-widget.php"
  {
  }

  /** The widget class lives in `widgets/my-custom-widget.php`, so, whatever
      else exists, the autoloader looks for it in vain under `includes/`; the
      plugin requires that file explicitly. */
  lemma CustomWidgetNotAutoloaded(relative: string, basePath: string, existing: set<string>)
    requires relative == "My_Custom_Widget"
    requires basePath + "includes/class-my-custom-widget.php" !in existing
    ensures Autoload(ClassPrefix + relative, basePath, existing)
            == NotFound(basePath + "includes/" + FileName(relative))
  {
    CustomWidgetFileName(relative);
    PluginClassPath(relative, basePath, existing);
    assert basePath + "includes/" + FileName(relative) == basePath + "includes/class-my-custom-widget.php";
  }
}
