/**
 * The records the demo REST API serves, the requests the screens send to it, and the
 * outcome of a request as the screens see it (a response, or a rejected promise).
 * Only the fields the screens read are kept.
 */
module Remote {
  import opened Basics

  datatype Post = Post(userId: int, id: int, title: string, body: string)

  datatype Comment = Comment(postId: int, id: int, name: string, email: string, body: string)

  datatype Photo = Photo(albumId: int, id: int, title: string, url: string, thumbnailUrl: string)

  datatype User = User(id: int, name: string, email: string)

  datatype Todo = Todo(userId: int, id: int, title: string, completed: bool)

  /** One HTTP request sent to the API. */
  datatype Request =
    | GetPosts                                                        // GET /posts
    | GetUsers                                                        // GET /users
    | GetComments(postId: int)                                        // GET /comments?postId=
    | GetPost(postId: int)                                            // GET /posts/{id}
    | CreatePost(title: string, body: string, authorId: int)          // POST /posts
    | CreateComment(target: Option<int>, text: string, email: string) // POST /posts/{id}/comments
    | UpdatePost(target: Option<int>, newTitle: string, newBody: string) // PATCH /posts/{id}
    | DeletePost(target: Option<int>)                                 // DELETE /posts/{id}
    | GetPhotos(albumId: Option<int>)                                 // GET /photos[?albumId=]
    | GetTodos(ofUser: int)                                           // GET /todos?userId=
    | FindUsersByEmail(email: string)                                 // GET /users?email=
    | ReplaceUserEmail(targetId: int, newEmail: string)               // PUT /users/{id}

  /** What awaiting a request gives: the decoded body, or a thrown error. */
  datatype Response<T> = Received(data: T) | Failed
}
