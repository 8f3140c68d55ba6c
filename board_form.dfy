/** What the board write and edit forms share. */
module BoardForm {

  /** The JSON "data" blob of a board post, `{ title, content, category }`. */
  datatype BoardData = BoardData(title: string, content: string, category: string)

  /** The category both forms start on. */
  const DefaultCategory := "주식"
}
