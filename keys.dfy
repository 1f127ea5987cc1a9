/**
 * The keyboard handlers of app.py (`on_key`, `http_key`): a character event
 * types its text, a key event presses the injector key a browser key name
 * maps to, or types a single-character key name as it is.
 */
module Keys {
  import opened Options
  import opened Injector

  /** The browser key names with an injector key of their own, and that key. */
  const SPECIAL_MAP: map<string, string> := map[
    "Enter" := "enter",
    "Backspace" := "backspace",
    "Tab" := "tab",
    "Escape" := "esc",
    "ArrowLeft" := "left",
    "ArrowRight" := "right",
    "ArrowUp" := "up",
    "ArrowDown" := "down"]

  /** `special_map.get(k)` */
  function SpecialKey(k: string): (r: Option<string>)
    ensures r.Some? <==> k in SPECIAL_MAP
    ensures r.Some? ==> r.value == SPECIAL_MAP[k]
  {
    if k in SPECIAL_MAP then Some(SPECIAL_MAP[k]) else None
  }

  /** The browser name of an injector key, if one maps to it: the inverse of `SpecialKey`. */
  function BrowserName(injected: string): (r: Option<string>)
  {
    if injected == "enter" then Some("Enter")
    else if injected == "backspace" then Some("Backspace")
    else if injected == "tab" then Some("Tab")
    else if injected == "esc" then Some("Escape")
    else if injected == "left" then Some("ArrowLeft")
    else if injected == "right" then Some("ArrowRight")
    else if injected == "up" then Some("ArrowUp")
    else if injected == "down" then Some("ArrowDown")
    else None
  }

  /** The lookup is a bijection between the eight browser names and their injector keys. */
  lemma SpecialKeyRoundTrip(k: string, injected: string)
    ensures SpecialKey(k) == Some(injected) <==> BrowserName(injected) == Some(k)
  {
  }

  /** No two browser names press the same injector key. */
  lemma SpecialKeyInjective(a: string, b: string)
    requires SpecialKey(a).Some? && SpecialKey(a) == SpecialKey(b)
    ensures a == b
  {
    SpecialKeyRoundTrip(a, SpecialKey(a).value);
    SpecialKeyRoundTrip(b, SpecialKey(b).value);
  }

  /** A one-character key name is never special, so the fallback that types it cannot shadow a mapped key. */
  lemma SingleCharacterNotSpecial(k: string)
    requires |k| == 1
    ensures SpecialKey(k) == None
  {
  }

  /** A key event as received: its `type`, `value` and `key` members, each possibly absent. */
  datatype KeyEvent = KeyEvent(kind: Option<string>, value: Option<string>, key: Option<string>)

  /** What a key event asks of the injector. */
  function KeyActions(e: KeyEvent): (r: seq<Action>)
    ensures |r| <= 1 && NoMotion(r)
    ensures forall n :: r == [PressKey(n)] <==>
      e.kind == Some("key") && e.key.Some? && SpecialKey(e.key.value) == Some(n)
    ensures forall t :: r == [TypeText(t)] <==>
      || (e.kind == Some("char") && e.value == Some(t) && t != "")
      || (e.kind == Some("key") && e.key == Some(t) && |t| == 1)
    ensures r == [] <==>
      || (e.kind != Some("char") && e.kind != Some("key"))
      || (e.kind == Some("char") && (e.value.None? || e.value == Some("")))
      || (e.kind == Some("key") && (e.key.None? || (SpecialKey(e.key.value).None? && |e.key.value| != 1)))
  {
    if e.kind == Some("char") then
      if e.value.Some? && e.value.value != "" then [TypeText(e.value.value)] else []
    else if e.kind == Some("key") then
      match e.key
      case None => []
      case Some(k) =>
        match SpecialKey(k)
        case Some(mapped) => [PressKey(mapped)]
        case None => if |k| == 1 then [TypeText(k)] else []
    else []
  }
}
