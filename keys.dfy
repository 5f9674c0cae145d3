/**
 * Abstract keys and key combinations as the hotkey layer sees them.
 * obs_key_t has one enumerator per key; this core names only OBS_KEY_NONE and
 * the four modifier keys, so every other key is KeyOther with an opaque code.
 */
module Keys {
  datatype Key = KeyNone | KeyControl | KeyMeta | KeyAlt | KeyShift | KeyOther(code: nat)

  /** The modifier flags of an obs_key_combination_t (INTERACT_CONTROL_KEY,
      INTERACT_COMMAND_KEY, INTERACT_ALT_KEY, INTERACT_SHIFT_KEY); the formatter
      only tests whether each flag is set, so the flags are kept as a set. */
  datatype Modifier = ControlKey | CommandKey | AltKey | ShiftKey

  datatype KeyCombination = KeyCombination(modifiers: set<Modifier>, key: Key)
}
