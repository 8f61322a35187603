/** Values the host server hands to the plugin: identities, materials, scheduled tasks, click actions. */
module Host {
  /** A missing value, as Kotlin's `null`. */
  datatype Option<+T> = None | Some(value: T)

  /** An entity handle; a player is an entity too, so both share one identity space. */
  type EntityId = nat

  /** A material (item type), named as in the server's material catalog. */
  type Material = string

  /** The repeating tasks the plugin can have on the server's scheduler. */
  datatype Task =
    | ReloadTimer    // the config watcher started when the plugin is enabled
    | ParticleTimer  // the per-tick particle pass over the selections

  /** The action of a player-interact event. */
  datatype Click = LeftClickAir | LeftClickBlock | RightClickAir | RightClickBlock | Physical

  predicate IsRightClick(a: Click) { a == RightClickAir || a == RightClickBlock }

  predicate IsLeftClick(a: Click) { a == LeftClickAir || a == LeftClickBlock }
}
