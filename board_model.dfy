// The data of the kanban board store: boards (columns) holding cards, the
// partial object that `updateCard` spreads over a card, the record the drag
// controller and the editor keep, and the seed store used when nothing is saved.
module Model {

  /** A value that may be absent: JavaScript's `null` from a cancelled prompt,
      or a key left out of a spread object. */
  datatype Option<T> = None | Some(value: T) {
    function GetOr(default: T): (r: T)
      ensures Some? ==> r == value
      ensures None? ==> r == default
    {
      match this
      case Some(v) => v
      case None => default
    }
  }

  datatype Priority = Low | Medium | High

  datatype Card = Card(
    id: int,
    title: string,
    description: string,
    priority: Priority,
    dueDate: string,   // an ISO date or ""
    tags: seq<string>)

  datatype Board = Board(id: int, title: string, cards: seq<Card>)

  /** The object spread over a card by `updateCard`: `None` is a key the object lacks. */
  datatype CardUpdate = CardUpdate(
    id: Option<int>,
    title: Option<string>,
    description: Option<string>,
    priority: Option<Priority>,
    dueDate: Option<string>,
    tags: Option<seq<string>>)

  /** `{ card, sourceBoardId }` kept by the drag controller, `{ card, boardId }` by the editor. */
  datatype CardRef = CardRef(card: Card, boardId: int)

  /** The keys that `filter` and `===` compare. */
  function BoardId(b: Board): int { b.id }
  function CardId(c: Card): int { c.id }

  /** The effect of an update on one card: `after` has each field that `u` supplies and keeps
      the others of `before`; a card with another id than `cardId` is left as it was. */
  predicate Updated(before: Card, cardId: int, u: CardUpdate, after: Card) {
    if before.id != cardId then after == before
    else
      && (if u.id.Some? then after.id == u.id.value else after.id == before.id)
      && (if u.title.Some? then after.title == u.title.value else after.title == before.title)
      && (if u.description.Some? then after.description == u.description.value
          else after.description == before.description)
      && (if u.priority.Some? then after.priority == u.priority.value
          else after.priority == before.priority)
      && (if u.dueDate.Some? then after.dueDate == u.dueDate.value else after.dueDate == before.dueDate)
      && (if u.tags.Some? then after.tags == u.tags.value else after.tags == before.tags)
  }

  /** `{ ...card, ...updates }`: a key present in `u` wins, an absent key keeps the card's value. */
  function Merge(c: Card, u: CardUpdate): (r: Card)
    ensures Updated(c, c.id, u, r)
  {
    Card(u.id.GetOr(c.id), u.title.GetOr(c.title), u.description.GetOr(c.description),
         u.priority.GetOr(c.priority), u.dueDate.GetOr(c.dueDate), u.tags.GetOr(c.tags))
  }

  /** The update `handleSave` sends: the five working fields of the editor, and no `id`. */
  function EditorUpdate(title: string, description: string, priority: Priority,
                        dueDate: string, tags: seq<string>): CardUpdate
  {
    CardUpdate(None, Some(title), Some(description), Some(priority), Some(dueDate), Some(tags))
  }

  /** Every card of the store, board by board. */
  function AllCards(boards: seq<Board>): seq<Card> {
    if boards == [] then [] else boards[0].cards + AllCards(boards[1..])
  }

  /** The cards of the store used when nothing has been saved yet. */
  const DesignMockups: Card :=
    Card(1, "Diseñar mockups", "Crear diseños iniciales del proyecto", High, "2025-10-20", ["diseño", "urgente"])
  const SetUpProject: Card :=
    Card(2, "Configurar proyecto", "Inicializar repositorio y dependencias", Medium, "2025-10-15", ["desarrollo"])
  const BuildComponents: Card :=
    Card(3, "Desarrollar componentes", "Crear componentes React principales", High, "2025-10-18",
         ["desarrollo", "frontend"])

  /** The store used when nothing has been saved yet. */
  const SeedBoards: seq<Board> := [
    Board(1, "Por Hacer", [DesignMockups, SetUpProject]),
    Board(2, "En Progreso", [BuildComponents]),
    Board(3, "Completado", [])
  ]
}
