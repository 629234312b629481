/** The records that the backend stores and the frontend receives as JSON. */
module Records {
  import opened Basics

  /** A song as GET /songs returns it; category is "original" or "cover", or
      absent for rows stored without one. */
  datatype Song = Song(
    id: string,
    title: string,
    audioUrl: string,
    coverUrl: Option<string>,
    description: Option<string>,
    category: Option<string>)

  /** A news post as GET /news returns it. Dates are kept as the ISO strings
      the table stores. */
  datatype NewsPost = NewsPost(
    id: string,
    title: string,
    content: string,
    excerpt: Option<string>,
    category: string,
    sourceUrl: Option<string>,
    sourceName: Option<string>,
    author: Option<string>,
    imageUrl: Option<string>,
    publishedDate: string,
    isFeatured: bool,
    tags: seq<string>)

  /** A row of the news_categories table; color and icon may be null. */
  datatype NewsCategory = NewsCategory(
    id: string,
    name: string,
    color: Option<string>,
    icon: Option<string>)
}
