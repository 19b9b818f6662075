/** The command router of `exports.handler`: exact comparison of the
    message text against the `userCommands` table. */
module Router {
  import opened Wrappers

  /** Which flow handles a message. */
  datatype Intent = Join | Leave | Help | Forward

  /** The `userCommands` table: the text that selects each command. */
  const UserCommands: map<Intent, string> := map[Join := "/start", Leave := "/stop", Help := "/help"]

  /** Classifies a message by its text. A command is chosen exactly when the
      text is, character for character, that command's table entry; every
      other text, and a missing text, is forwarded. */
  function Route(text: Option<string>): (r: Intent)
    ensures r in UserCommands ==> text == Some(UserCommands[r])
    ensures r == Forward <==> text.None? || forall i | i in UserCommands :: UserCommands[i] != text.value
  {
    if text == Some("/start") then Join
    else if text == Some("/stop") then Leave
    else if text == Some("/help") then Help
    else Forward
  }

  /** No two commands share a text, so the order of the comparisons does not
      matter: each command text selects its own command. */
  lemma CommandsSelectThemselves(i: Intent)
    requires i in UserCommands
    ensures Route(Some(UserCommands[i])) == i
  {
  }

  /** A text holding a space (a command word with an argument, such as
      "/debug test") is never a command. */
  lemma TextWithSpaceIsForwarded(t: string)
    requires ' ' in t
    ensures Route(Some(t)) == Forward
  {
  }
}
