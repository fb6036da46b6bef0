/**
 * The two tools the chat route hands to the language model: a web search backed by Tavily and
 * an image generator backed by the image action. The search service and the image action are
 * function parameters; argument validation is the schema each tool declares.
 */
module Tools {
  import opened Wrappers
  import opened Text
  import Json

  type Env = map<string, string>

  /** How a tool call ends when it does not return a value. */
  datatype ToolError = InvalidToolArguments | ToolFailure(message: string)

  /** A configured web-search tool, holding the service key. */
  datatype WebSearch = WebSearch(tavilyApiKey: string)

  /** `webSearchTool()`: needs a non-empty `TAVILY_API_KEY`, otherwise it throws. */
  function WebSearchTool(env: Env): (r: Result<WebSearch, string>)
    ensures r.Ok? <==> "TAVILY_API_KEY" in env && env["TAVILY_API_KEY"] != ""
    ensures r.Ok? ==> r.value.tavilyApiKey == env["TAVILY_API_KEY"]
    ensures r.Err? ==> r.error == "TAVILY_API_KEY is not set"
  {
    if "TAVILY_API_KEY" in env && Truthy(env["TAVILY_API_KEY"]) then Ok(WebSearch(env["TAVILY_API_KEY"]))
    else Err("TAVILY_API_KEY is not set")
  }

  /** The declared parameter: a query of 1 to 100 characters. */
  predicate ValidSearchQuery(query: string) {
    1 <= |query| <= 100
  }

  /** The request sent to the search service. */
  datatype SearchRequest = SearchRequest(apiKey: string, query: string, maxResults: nat, searchDepth: string, includeRawContent: string)

  datatype TavilyResult = TavilyResult(title: string, url: string, content: string, score: real, rawContent: Option<string>)

  /** The shape the model receives for one search hit. */
  datatype SearchResult = SearchResult(title: string, url: string, description: string, content: string, score: real, rawContent: string)

  const RawContentLimit: nat := 1000

  function MapSearchResult(t: TavilyResult): (r: SearchResult)
    ensures r.title == t.title && r.url == t.url && r.score == t.score
    ensures r.description == t.content && r.content == t.content
    ensures |r.rawContent| <= RawContentLimit
    ensures t.rawContent.None? ==> r.rawContent == ""
    ensures t.rawContent.Some? ==> r.rawContent <= t.rawContent.value
    ensures t.rawContent.Some? && |t.rawContent.value| <= RawContentLimit ==> r.rawContent == t.rawContent.value
    ensures t.rawContent.Some? && |t.rawContent.value| > RawContentLimit ==> |r.rawContent| == RawContentLimit
  {
    SearchResult(t.title, t.url, t.content, t.content, t.score,
                 if t.rawContent.Some? then Prefix(t.rawContent.value, RawContentLimit) else "")
  }

  function MapSearchResults(results: seq<TavilyResult>): (r: seq<SearchResult>)
    ensures |r| == |results|
    ensures forall i :: 0 <= i < |r| ==> r[i] == MapSearchResult(results[i])
  {
    seq(|results|, i requires 0 <= i < |results| => MapSearchResult(results[i]))
  }

  /**
   * A web-search tool call: an invalid query never reaches the service; a failing search is
   * reported as "Failed to perform web search"; otherwise every hit is mapped, in order.
   */
  function ExecuteWebSearch(tool: WebSearch, query: string, search: SearchRequest -> Result<seq<TavilyResult>, string>)
    : (r: Result<seq<SearchResult>, ToolError>)
    ensures !ValidSearchQuery(query) <==> r == Err(InvalidToolArguments)
    ensures ValidSearchQuery(query) && search(SearchRequest(tool.tavilyApiKey, query, 5, "advanced", "text")).Err?
      <==> r == Err(ToolFailure("Failed to perform web search"))
    ensures r.Ok? ==> r.value == MapSearchResults(search(SearchRequest(tool.tavilyApiKey, query, 5, "advanced", "text")).value)
  {
    if !ValidSearchQuery(query) then Err(InvalidToolArguments)
    else
      match search(SearchRequest(tool.tavilyApiKey, query, 5, "advanced", "text"))
      case Err(_) => Err(ToolFailure("Failed to perform web search"))
      case Ok(results) => Ok(MapSearchResults(results))
  }

  /** A configured image tool: the caller's image-service key and the chosen image model. */
  datatype ImageGeneration = ImageGeneration(apiKey: Option<string>, imageGenModel: string)

  /** The arguments of the image action. */
  datatype ImageActionArgs = ImageActionArgs(prompt: string, apiKey: Option<string>, imageGenModel: string)

  /** A non-empty prompt is the only declared parameter. */
  predicate ValidImagePrompt(prompt: string) {
    |prompt| >= 1
  }

  /**
   * An image tool call: an empty prompt is refused; otherwise the prompt, the key and the model
   * the tool was built with go to the action, whose value (or thrown message) is the tool's.
   */
  function ExecuteImageGeneration(tool: ImageGeneration, prompt: string, action: ImageActionArgs -> Result<Json.JsonValue, string>)
    : (r: Result<Json.JsonValue, ToolError>)
    ensures !ValidImagePrompt(prompt) <==> r == Err(InvalidToolArguments)
    ensures ValidImagePrompt(prompt) ==>
      match action(ImageActionArgs(prompt, tool.apiKey, tool.imageGenModel))
      case Ok(v) => r == Ok(v)
      case Err(e) => r == Err(ToolFailure(e))
  {
    if !ValidImagePrompt(prompt) then Err(InvalidToolArguments)
    else
      match action(ImageActionArgs(prompt, tool.apiKey, tool.imageGenModel))
      case Ok(v) => Ok(v)
      case Err(e) => Err(ToolFailure(e))
  }
}
