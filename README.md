# Blog-post search: a verified model

This project models the core of a small HTTP service that searches blog posts by tag.
For `GET /api/posts?tags=<csv>&sortby=<field>&direction=<dir>` the handler
`postsController.getPosts`:

1. checks the query in a fixed order: `tags`, then `sortby`, then `direction`, each with its own error message;
2. splits `tags` on `,`;
3. fetches one post list per tag from an upstream API and waits for all of them;
4. merges the lists in tag order and drops every post whose `id` was already seen (`removeDups`);
5. fills in the defaults `sortby=id` and `direction=asc`, and sorts in place with a numeric comparator on the chosen field.

Modules:

- `Wrappers` (wrappers.dfy): `Option` and `Result`.
- `Posts` (posts.dfy): the `Post` record, the four sort fields, `Key` (a post's value for a field), and predicates on lists of posts.
- `Services` (services.dfy): `removeDups` from services/index.js. It is the method `RemoveDups`: a loop over the input array with a `map<int, nat>` counter cache, proved equal to the recursive specification `Dedup`. Lemmas prove what `Dedup` promises. The source controller repeats this code inline (controllers/postsController.js:40-48); the model's `GetPosts` calls this method.
- `Strings` (strings.dfy): `split` and `join` on a one-character separator, with both round trips.
- `PostsController` (posts_controller.dfy): the validation chain, the defaults, `FetchAll` (the `Promise.all` join), `Flatten`, the comparator, the in-place sort `SortPosts`, and the handler `GetPosts`.
- `Fixture` (fixture.dfy): the test suite's mock data, six posts returned for every tag. It proves the suite's validation errors and the complete expected answer of every successful request in the suite.

The upstream HTTP call is the parameter `fetch: string -> Result<seq<Post>, string>`. All other behaviour is modelled as the source writes it, except what "## Left out" lists.

## Model

| member | source | states |
|---|---|---|
| Services.RemoveDups | services/index.js:1-9 | The returned posts are exactly `Dedup` of the input, and the input array is only read. The loop keeps `cache[id]` equal to the number of posts with that id in the processed prefix, and has a counter for exactly the ids seen so far. So a post is pushed exactly when its counter becomes 1. |
| Services.OccurrencesPositive | services/index.js:5 | An id's counter is non-zero exactly when the id occurs in the processed prefix, so the truthiness test `cache[post.id] ?` means "seen before". |
| Services.DedupDistinct | services/index.js:5-6 | No two posts of the output share an id. |
| Services.DedupIds | services/index.js:4-7 | The output has exactly the input's set of ids: every id of the input is kept once. |
| Services.PermutationKeepsDistinct | services/index.js:4-7 | Any reordering of a list with distinct ids still has distinct ids, so sorting the de-duplicated posts cannot bring a duplicate back. |
| Services.DedupSubsequence | services/index.js:4-7 | The output is a subsequence of the input: every output post comes from the input, in the input's relative order. |
| Services.FirstIndex | services/index.js:5-6 | The position it gives holds a post with the id, and no earlier position does: it is the first occurrence. |
| Services.FirstIndexSnoc | services/index.js:5-6 | Appending a post does not move the first occurrence of an id already present; an id not present before first occurs at the appended post. |
| Services.DedupInFirstOccurrenceOrder | services/index.js:4-7 | Of any two kept posts, the earlier one's id first occurs earlier in the input: the output is ordered by first occurrence. |
| Services.DedupKeepsFirst | services/index.js:5-6 | Each kept post is the first post of the input with its id. Later posts with that id are dropped whatever their other fields. |
| Services.DedupLength | services/index.js:1-9 | The output is at most as long as the input. It is exactly as long if and only if the input ids are pairwise distinct. |
| Services.DedupOfDistinct | services/index.js:1-9 | On input with distinct ids the output is the input. |
| Services.DedupIdempotent | services/index.js:1-9 | Applying removeDups twice gives the same list as applying it once. |
| Services.DedupDropsSeen | services/index.js:5-6 | Appending posts whose ids all occurred earlier does not change the output. This is why two tags that return the same posts give each post once. |
| Strings.Split | controllers/postsController.js:28 | `tags.split(',')` always has at least one piece. |
| Strings.SplitLength | controllers/postsController.js:28 | The tag list has exactly one element more than there are commas in `tags`. |
| Strings.SplitPiecesHaveNoSeparator | controllers/postsController.js:28 | No tag in the list contains a comma. |
| Strings.JoinSplit | controllers/postsController.js:28 | Joining the tag list with `,` gives back the original `tags` string. |
| Strings.SplitJoin | controllers/postsController.js:28 | Conversely, splitting a `,`-join of one or more comma-free tags gives back those tags. |
| PostsController.FieldNamed | controllers/postsController.js:12-17 | A name denotes a sort field exactly when it is one of `id`, `reads`, `likes`, `popularity`, and that field's property name is the name. |
| PostsController.Validate | controllers/postsController.js:8-25 | The checks run in order and the first failure wins. Absent or empty `tags` gives "The tags parameter is required". Otherwise a non-empty `sortby` outside the four fields gives "The sortBy parameter is invalid". Otherwise a non-empty `direction` other than `asc`/`desc` gives "The direction parameter is invalid". Each case holds if and only if its condition does, and the query passes exactly when all three conditions hold. |
| PostsController.Direction | controllers/postsController.js:49 | A given non-empty `direction` is used as it is; an absent or empty one defaults to `asc`. After validation the direction is `asc` or `desc`. |
| PostsController.SortParam | controllers/postsController.js:50 | A given non-empty `sortby` is used as it is; an absent or empty one defaults to `id`. After validation it names one of the four sort fields. |
| PostsController.FetchAll | controllers/postsController.js:30-37 | The join succeeds exactly when every tag's fetch succeeds. It then yields one list per tag, in tag order, each being that tag's fetched posts. Otherwise it fails with the error of a tag whose fetch failed. |
| PostsController.Flatten | controllers/postsController.js:52 | Every post of every per-tag list is in the merge, and every post of the merge comes from some per-tag list. |
| PostsController.FlattenAppend | controllers/postsController.js:52 | Merging keeps the tag order: the merge of the lists of earlier tags comes before the merge of later ones. |
| PostsController.FlattenSingle | controllers/postsController.js:52 | A single tag's list is merged unchanged, in its own order and with its repeated posts; with `FlattenAppend` this makes the merge exactly the lists one after the other. |
| PostsController.FlattenLength | controllers/postsController.js:52 | The merge is as long as all the per-tag lists together: no copy of a post is lost or added. |
| PostsController.Compare | controllers/postsController.js:53-57 | With `desc` the comparator allows `a` before `b` exactly when `a`'s field is at least `b`'s. With any other direction it allows this exactly when `a`'s field is at most `b`'s. |
| PostsController.SortedByKeys | controllers/postsController.js:53-57 | A list in comparator order is non-increasing in the field for `desc` and non-decreasing otherwise. |
| PostsController.SortPosts | controllers/postsController.js:52-58 | The in-place sort leaves the array in comparator order and holding the same posts (a permutation). |
| PostsController.GetPosts | controllers/postsController.js:5-65 | A failed check answers with its error whatever `fetch` does, so nothing is fetched first. A failed fetch answers with the fetch's error. Otherwise the answer is a permutation of `Dedup` of the tag-ordered merge. It is non-decreasing in the chosen field for `asc` and non-increasing for `desc`, and no two of its posts share an id. |
| Fixture.SuiteValidationErrors | __tests__/server.test.js:90-123 | No tags, `sortby=incorrectparam` and `direction=incorrectparam` each fail with the message the suite expects. |
| Fixture.MockDedup | __tests__/server.test.js:130-137 | The mock's six posts fetched for both `history` and `tech` merge into twelve and de-duplicate to the six. |
| Fixture.SortedPermutationUnique | __tests__/server.test.js:138-234 | A sorted permutation of a strictly ordered list is that list. With distinct keys the suite's expected orders are the only possible answers. |
| Fixture.RequestOnMock | __tests__/server.test.js:124-137 | For `tags=history,tech` with a valid sort, the handler answers exactly the six mock posts in the expected order, whenever that order is strict in the requested field and direction. |
| Fixture.DefaultRequest | __tests__/server.test.js:138-146 | `tags=history,tech` alone answers the six posts by ascending id: 1, 2, 4, 8, 10, 12. |
| Fixture.IdAscRequest | __tests__/server.test.js:147-157 | `sortby=id&direction=asc` answers ids 1, 2, 4, 8, 10, 12. |
| Fixture.IdDescRequest | __tests__/server.test.js:158-168 | `sortby=id&direction=desc` answers ids 12, 10, 8, 4, 2, 1. |
| Fixture.ReadsAscRequest | __tests__/server.test.js:169-179 | `sortby=reads&direction=asc` answers reads 8504, 19645, 35913, 50361, 80351, 90406. |
| Fixture.ReadsDescRequest | __tests__/server.test.js:180-190 | `sortby=reads&direction=desc` answers reads 90406, 80351, 50361, 35913, 19645, 8504. |
| Fixture.LikesAscRequest | __tests__/server.test.js:191-201 | `sortby=likes&direction=asc` answers likes 469, 590, 728, 735, 853, 960. |
| Fixture.LikesDescRequest | __tests__/server.test.js:202-212 | `sortby=likes&direction=desc` answers likes 960, 853, 735, 728, 590, 469. |
| Fixture.PopularityAscRequest | __tests__/server.test.js:213-223 | `sortby=popularity&direction=asc` answers popularity 0.13, 0.32, 0.6, 0.68, 0.76, 0.88. |
| Fixture.PopularityDescRequest | __tests__/server.test.js:224-234 | `sortby=popularity&direction=desc` answers popularity 0.88, 0.76, 0.68, 0.6, 0.32, 0.13, that is ids 4, 8, 2, 10, 12, 1. |

## Left out

- The upstream HTTP call (`axios.get`) and the concurrency of `Promise.all` are left out. `fetch` is a parameter, and `FetchAll` joins the per-tag results in tag order.
- `fetch` is a function of the tag, so a tag given twice (`tags=tech,tech`) gets the same answer both times. The source sends two independent requests, whose answers could differ; no property here depends on that.
- PostsController.FetchAll: when several fetches fail, `Promise.all` rejects with the failure that happens first in time. That timing is not observable here. The model reports the first failing tag in tag order, and its contract only promises the error of some failing tag.
- Express routing, the ping route, server start-up and the port variable are framework plumbing and are left out. The error middleware sends every validation error as status 400 with body `{error: <message>}`, and the model's `Failure(message)` stands for that response. A fetch failure is an error object: the middleware renders it as text and copies its own properties over the response (server.js:15-24), which can change the status and body. The model abstracts that text to the string `fetch` fails with.
- A query parameter given twice arrives as an array, and `split` then throws. Query values are modelled as strings only.
- `popularity` is a floating-point fraction in the API. It is an integer key here, with the same order (hundredths in the fixture). The comparator's float subtraction, and the `NaN` it gives for a missing field, are not modelled.
- Ids are integers. The JavaScript cache stringifies its keys, so `1` and `"1"` would collide; that is not modelled.
- `Array.prototype.sort`'s algorithm is not part of the source. `SortPosts` is an insertion sort with the source's comparator. Only sortedness and permutation are promised, not the order of posts with equal keys.
- The source sorts the array that `removeDups` returns. The model's `RemoveDups` returns a sequence, which `GetPosts` copies into a fresh array before sorting it in place. No other reference to that array exists, so nothing observable differs.
- The controller's inline copy of `removeDups` (controllers/postsController.js:40-48) is the same code as services/index.js:1-9. It is modelled once, by `Services.RemoveDups`.
- Logging (`console.log`) is left out.
