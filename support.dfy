/**
 * The two pieces of the window support code that are plain logic: the
 * window title shown for a program path, and the process exit code derived
 * from the result the event loop stores.
 */
module Support {
  import opened Wrappers

  /** `str::rfind('/')`: the index of the last '/' of `s`, if any. */
  function LastSlash(s: string): (r: Option<nat>)
    ensures r.None? <==> '/' !in s
    ensures r.Some? ==> r.value < |s| && s[r.value] == '/'
    ensures r.Some? ==> forall j | r.value < j < |s| :: s[j] != '/'
  {
    if |s| == 0 then None
    else if s[|s| - 1] == '/' then Some(|s| - 1)
    else
      var r := LastSlash(s[..|s| - 1]);
      assert s == s[..|s| - 1] + [s[|s| - 1]];
      r
  }

  /**
   * The title given to the window: the text after the last '/' of the
   * program path (`split_at(idx + 1).1`), or the whole path when it has no
   * '/'. The result is a suffix of the path without any '/', preceded in
   * the path by a '/' whenever the path has one.
   */
  function WindowTitle(title: string): (r: string)
    ensures '/' !in r
    ensures |r| <= |title| && r == title[|title| - |r|..]
    ensures '/' !in title ==> r == title
    ensures '/' in title ==> |r| < |title| && title[|title| - |r| - 1] == '/'
    ensures |title| > 0 && title[|title| - 1] == '/' ==> r == []
  {
    match LastSlash(title)
    case None => title
    case Some(idx) => title[idx + 1..]
  }

  /** A path made of a directory, a '/' and a file name is titled with the file name. */
  lemma TitleOfJoinedPath(dir: string, name: string)
    requires '/' !in name
    ensures WindowTitle(dir + "/" + name) == name
  {
    var path := dir + "/" + name;
    var r := WindowTitle(path);
    assert path[|dir|] == '/';
    assert path[|path| - |name|..] == name;
  }

  /** Taking the title of a title changes nothing. */
  lemma TitleIdempotent(title: string)
    ensures WindowTitle(WindowTitle(title)) == WindowTitle(title)
  {
  }

  /** The exit code handed to `process::exit` once the event loop is destroyed. */
  function ExitCode<E>(res: Outcome<E>): (code: int)
    ensures code == 0 || code == 1
    ensures code == 1 <==> res.Fail?
  {
    if res.Fail? then 1 else 0
  }

  /**
   * What the event loop holds when it ends: it starts from `Ok(())`, and the
   * first handler that fails stores its error and asks the loop to exit, so
   * no later handler runs.
   */
  function StoredResult<E>(outcomes: seq<Outcome<E>>): (r: Outcome<E>)
    ensures r.Fail? <==> exists i | 0 <= i < |outcomes| :: outcomes[i].Fail?
    ensures r.Fail? ==> exists i | 0 <= i < |outcomes| :: outcomes[i] == r &&
                          forall j | 0 <= j < i :: outcomes[j].Pass?
  {
    if |outcomes| == 0 then Pass
    else if outcomes[0].Fail? then outcomes[0]
    else
      var r := StoredResult(outcomes[1..]);
      assert forall i | 1 <= i < |outcomes| :: outcomes[i] == outcomes[1..][i - 1];
      r
  }

  /**
   * `main_loop` seen from its stored result: the handlers' outcomes are
   * taken in order until one fails, which stores its error and ends the
   * loop; the exit code is then 1 exactly when an error was stored.
   */
  method RunEventLoop<E>(outcomes: seq<Outcome<E>>) returns (code: int, handled: nat)
    ensures code == ExitCode(StoredResult(outcomes))
    ensures code == 1 <==> exists i | 0 <= i < |outcomes| :: outcomes[i].Fail?
    ensures handled <= |outcomes| && forall j | 0 <= j < handled - 1 :: outcomes[j].Pass?
    ensures code == 1 ==> 0 < handled && outcomes[handled - 1].Fail?
    ensures code == 0 ==> handled == |outcomes|
  {
    var res: Outcome<E> := Pass;
    handled := 0;
    while handled < |outcomes|
      invariant handled <= |outcomes|
      invariant forall j | 0 <= j < handled :: outcomes[j].Pass?
      invariant res == Pass
      invariant StoredResult(outcomes) == StoredResult(outcomes[handled..])
    {
      var outcome := outcomes[handled];
      assert outcomes[handled..][1..] == outcomes[handled + 1..];
      handled := handled + 1;
      if outcome.Fail? {
        res := outcome;
        break;
      }
    }
    code := if res.Fail? then 1 else 0;
  }
}
