/** The browser's `localStorage`, reduced to the three keys the client
    uses: 'notes' and 'categories' (the mock stores) and 'token' (the auth
    session). */
module BrowserStorage {
  import opened Wrappers
  import opened Entities

  /** What reading a JSON-valued key and parsing it gives: nothing stored
      (`getItem` returns null), the parsed value, or text that `JSON.parse`
      rejects, with the message of the `SyntaxError` it throws. */
  datatype Slot<T> = Absent | Stored(value: T) | Corrupt(parseError: string)

  class Storage {
    var notes: Slot<seq<Note>>
    var categories: Slot<seq<Category>>
    var token: Option<string>

    constructor (notes: Slot<seq<Note>>, categories: Slot<seq<Category>>, token: Option<string>)
      ensures this.notes == notes && this.categories == categories && this.token == token
    {
      this.notes := notes;
      this.categories := categories;
      this.token := token;
    }
  }
}
