/** The backend requests the repositories and the mediator send, as the call
    sites build them. How they are encoded on the wire is not modelled. */
module Api {

  datatype Request =
    /** `register(name, email, password)`. */
    | RegisterRequest(name: string, email: string, password: string)
    /** `login(email, password)`. */
    | LoginRequest(email: string, password: string)
    /** `getStories(page, size)` with the session's bearer token. */
    | GetStoriesRequest(page: int, size: int, token: string)
    /** `getStoriesWithLocation()` with the session's bearer token. */
    | StoriesWithLocationRequest(token: string)
    /** `postStory(photo, description, lat, lon)`: the photo part's file name
        and the three text parts, with the session's bearer token. */
    | PostStoryRequest(photoFileName: string, description: string, lat: string, lon: string, token: string)
}
