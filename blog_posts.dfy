/** Blog post records as the content collection produces them. */
module BlogPosts {
  import opened Common

  /** One step of a post's HowTo configuration. */
  datatype HowToStep = HowToStep(name: string, text: string, url: Option<string>, image: Option<string>)

  datatype EstimatedCost = EstimatedCost(currency: string, value: string)

  /** The optional HowTo block of a post's front matter. */
  datatype HowToConfig = HowToConfig(
    totalTime: Option<string>,
    estimatedCost: Option<EstimatedCost>,
    steps: Option<seq<HowToStep>>
  )

  /** The fields of a post that the blog pages use; optional front-matter
      fields are `Option`s. */
  datatype BlogPost = BlogPost(
    title: string,
    description: string,
    slug: string,
    date: string,
    lastModified: Option<string>,
    category: string,
    tags: Option<seq<string>>,
    featuredImage: Option<string>,
    imageAlt: Option<string>,
    imageCredit: Option<string>,
    author: Option<string>,
    readTime: Option<real>,
    keywords: Option<seq<string>>,
    relatedPosts: Option<seq<string>>,
    howTo: Option<HowToConfig>
  )

  /** An entry of the generated post collection: the post's fields plus the
      visibility flag computed when the collection was built. */
  datatype CollectionPost = CollectionPost(post: BlogPost, isVisible: bool)
}
