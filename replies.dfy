/** The reply of a scraping tool: the text of its one content item, and whether it reports an error. */
module Replies {
  datatype ToolReply = ToolReply(text: string, isError: bool)
}
