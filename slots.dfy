/**
 * The three daily on-call roles and the keys each part of the system stores them under.
 * The keys do not agree across files and are kept verbatim:
 *   - the editor and the stored schema use `morning` / `main` / `night`;
 *   - the read-only table and the status widget use `second` / `day` / `night`;
 *   - the scorer reads only `day` and `night`.
 */
module Slots {

  datatype SlotKind = Secondary | Primary | Night

  /** Which key set a component reads and writes. */
  datatype Layout = EditorRows | ViewRows

  /** Keys of OnCallTable.tsx and of the OnCallSchedule schema. */
  function EditorKey(k: SlotKind): string {
    match k
    case Secondary => "morning"
    case Primary => "main"
    case Night => "night"
  }

  /** Keys of OnCallTableReadOnly.tsx and CurrentStatus.tsx. */
  function ViewKey(k: SlotKind): string {
    match k
    case Secondary => "second"
    case Primary => "day"
    case Night => "night"
  }

  function Key(layout: Layout, k: SlotKind): string {
    match layout
    case EditorRows => EditorKey(k)
    case ViewRows => ViewKey(k)
  }

  /** Within one layout, different roles are stored under different keys. */
  lemma KeysDistinct(layout: Layout, k1: SlotKind, k2: SlotKind)
    ensures Key(layout, k1) == Key(layout, k2) <==> k1 == k2
  {
  }

  /** The two layouts agree only on the night row. */
  lemma LayoutsAgreeOnlyOnNight(k1: SlotKind, k2: SlotKind)
    ensures EditorKey(k1) == ViewKey(k2) <==> k1 == Night && k2 == Night
  {
  }
}
