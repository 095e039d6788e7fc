/** The article record that the news processor filters and summarises and the text splitter
    writes out: the fields an RSS item is mapped to, plus the summary attached later. */
module Articles {

  datatype Article = Article(
    title: string,
    description: string,
    content: string,
    link: string,
    pubDate: string,
    source: string,
    summary: string)
}
